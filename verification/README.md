# A verified model of WSLVault's stateful core

WSLVault is a multi-tenant secrets vault. This project models the parts of it
that carry state and must not lose, leak or fork it, and proves what they keep
over every run:

- **Keys** (`Envelope`, `KeyStore`, `KeyStoreRuns`, `KeyVersions`, `KeyRequests`,
  `KeyTable`, `WarmLoad`, `Persistence`, `PersistenceRuns`, `DurabilityLimits`,
  `CurrentKeys`, `DatabaseStore`). A root key wraps one KEK per tenant, which wraps
  versioned DEKs. `KeyStoreRuns` runs any number of requests in memory, interleaved
  at every lock section; `KeyVersions` says which version of a key encrypts, and
  `KeyRequests` that nothing happens unasked. `Persistence` adds the descriptor table, restarts, seal cycles, the bounded
  warm load, lazy hydration, keys replicated by a peer region, tenants that come
  and go, and statements that fail or whose acknowledgement is lost; `CurrentKeys`
  counts there what each key was used for.
- **The seal** (`Sealing`, `SealRuns`, `SecretSharing`, `ShareSecrecy`, `Bytes`,
  `ByteField`, `ByteSharing`). Custody of the root key by shares, across
  replicas, restarts and concurrent init requests over one write-once row.
  `SecretSharing` proves that Shamir's scheme, over any field with 255 elements
  besides zero, is a sharing library of the kind the seal needs; `ByteSharing`
  that the field of 256 bytes is one such; `ShareSecrecy` that too few shares say
  nothing about the secret.
- **The audit log** (`AuditMessage`, `AuditChain`, `AuditWriters`, `AuditQuery`).
  The signed message, the hash chain, concurrent appenders, paging.
- **Single-use transactions** (`Invitations`, `Mfa`, `RecoveryRuns`), **leader
  election** (`LeaderElection`), the **key cache of token verifiers**
  (`JwksCache`) and **identifier quoting** (`SqlIdentifier`).

Three conventions hold throughout. Cryptography is ideal: an envelope opens for
the sealing key and associated data and nothing else, and the MAC of the audit
chain is an arbitrary function about which nothing is assumed. Random keys,
UUIDs, clocks, database answers and failures are parameters of the steps. A
protocol is a state machine whose `Run` folds any sequence of steps; each theorem
about runs rests on an invariant that a `...Keeps` lemma carries over each step.
Where the source updates something in place there is a class whose methods are
proved against the functions that the state machine is built from, and which say
on their own fields when they refuse and what they leave.

## What holds only under a condition

These follow the code, and state exactly when the promise in a comment, a
document or a test is met.

- The shipped schema makes `id` the primary key of `system.key_descriptors`, and
  rotation inserts a second row with the same id. `RotationDurableIff` and
  `RotationLosesLaterWrites`: a rotation survives a restart only where `id` with
  `version` identifies a row; otherwise the caller sees an error and the unsaved
  key encrypts from then on.
- A tenant KEK is looked up in memory only, and kept there when its INSERT fails.
  `CreatingKekDurableIff`, `MintingDurableIff`, `EncryptDurableIff`: after a
  refused or failed INSERT, after a failed warm load, or on a second replica, keys
  are minted under a KEK that no restart recovers. `UnregisteredTenantLosesWrites`
  is such a run: a request too early, the registration, and a request that
  succeeds and is lost.
- A failed warm load is answered as an unseal that loads keys on demand.
  `FailedLoadReadsIff`: that is so if its second query failed; if its first one
  did, only for tenants without a KEK in the table.
- The warm-load window counts rows: `WindowCompleteIff`. Hydration with a KEK that
  opens some rows and not others, while sealed or after a clash, hides the rest:
  `HydrationWholeIff`, `SealedHydrationIff`. A tenant or key id in another
  spelling is not the text the database returns: `ParseUuidFixes`. A tenant's first
  request under such a spelling fills its only KEK slot with a row that opens for
  nobody: `MisspelledTenantLosesSlotIff`.
- `sys/init` can leave a process with material that nobody holds shares for:
  `ReleasedSharesOpenProcessIff`, `OverlappingInitsStrand`. It replaces, rather
  than seals, a root key taken from the environment: `AdoptingCustodyReplacesRoot`.
  A share of another vault is counted, not rejected as promised:
  `ProgressCountsShares`. It is found out at the threshold, and the shares are then
  dropped or kept as `AttemptIff` says.
- NUL delimiters alone do not make the signed message unambiguous:
  `MessageUniqueIff`. Deleting the oldest or newest audit records is not detected
  without a known tip: `DeletionPassesIff`. An untouched row can fail
  verification: `ReadBackVerifiesIff`.
- Dropping the elector's connection does not free its lock: `StrandedLock`,
  `StrandLiftsIff`, `ErrorStrandsLock`. Confirming an authenticator again can
  reopen used steps: `ReplayIff`, with the run in `ReconfirmingReplays`. It can
  confirm a secret that no code was shown for: `ConfirmsProvedSecretIff`, with the
  run in `ConfirmsOtherSecret`.
- Reissued recovery codes are promised to end the old ones. `UsesNeverExceedCodes`
  and `ReplacementEndsOldCodesIff`: they do unless another replacement commits
  while this one is under way; `OverlappingReplacementsAddUp` is a run in which
  both sets stay good. One recovery attempt can spend two codes:
  `UseSpendsOneIff`.

## Model

| member | source | states |
|---|---|---|
| `Envelope.FormattedInjective` | services/crypto-service/src/kek_store.rs:525 | The three contexts in which keys are wrapped never share associated data, so a wrapped key cannot be moved between tenants, keys or transports. |
| `Envelope.ParseUuidFixes` | services/crypto-service/src/kek_store.rs:547-552 | Of all the spellings the parser accepts, a caller's id is the text the database returns if and only if it is the canonical one. |
| `Envelope.ParseUuidIff` | services/crypto-service/src/kek_store.rs:547-552 | The texts that parse to a UUID are, in either letter case, its text, its 32 digits, its text in braces and its URN. |
| `Envelope.CombinedRoundTrip` | services/identity-service/src/crypto_client.rs:60 | Joining key id and ciphertext with a colon and cutting at the first colon returns the pair if and only if the id has no colon. |
| `KeyStore.TryKeysFinds` | services/crypto-service/src/grpc.rs:186-214 | Walking a chain in any order is unambiguous: it yields the sealed plaintext iff the sealing key is present and the associated data matches. |
| `KeyStore.ParseCombined` | services/crypto-service/src/grpc.rs:171-184 | The decrypt parser accepts what clients send and returns the same key id and envelope. |
| `KeyStore.ParseWireIs` | services/crypto-service/src/grpc.rs:171-184 | Whatever the combined field holds: it is cut at its first colon, a missing colon or a blank part is an invalid argument, and a part that spells no id is an unknown key. |
| `KeyStore.DecryptIff` | services/crypto-service/src/grpc.rs:162-221 | Who gets a plaintext back: the owner, with the sealing key still in the chain and the sealing associated data; every other caller gets the error the handler maps to. |
| `KeyStore.ChainHolds` | services/crypto-service/src/kek_store.rs:920-931 | The chain handed to decryption contains exactly the current key and all superseded ones. |
| `KeyStore.KekStore.CreateTenantKek` | services/crypto-service/src/kek_store.rs:510-539 | The slow path re-checks under the lock and keeps a KEK that is there; while sealed it refuses; otherwise it stores the drawn KEK, wrapped so that the root key opens it for its tenant. |
| `KeyStore.KekStore.StoreDek` | services/crypto-service/src/kek_store.rs:660-679 | A new DEK is stored as version 1 with an empty chain, for its tenant, and its wrapped form opens for reload under its own id; no other key changes. |
| `KeyStore.KekStore.RotateDek` | services/crypto-service/src/kek_store.rs:1011-1037 | In place, the outgoing key joins the chain and the drawn one takes its slot under the next version, which is answered; an unknown key is an error and no other key changes. |
| `KeyStore.KekStore.TakeCurrentDek` | services/crypto-service/src/kek_store.rs:591-600 | While fewer than 100,000 operations are spent, one more is and the current key is answered; otherwise nothing happens. |
| `KeyStore.KekStore.AdoptCurrentDek` | services/crypto-service/src/kek_store.rs:613-632 | A rival's fresh DEK is used, at the cost of one operation, if one appeared meanwhile; else ours becomes current with one operation spent. |
| `KeyStore.KekStore.DekChain` | services/crypto-service/src/kek_store.rs:904-931 | The loop builds the owner's chain, newest first, and hides other tenants' keys as unknown. |
| `KeyStore.KekStore.DecryptRequest` | services/crypto-service/src/grpc.rs:162-221 | The handler's loop returns what decryption by the whole chain means. |
| `KeyStoreRuns.RunKeepsInv` | services/crypto-service/src/kek_store.rs:590-743 | The invariant of the in-memory store holds after every interleaving of lock sections. |
| `KeyStoreRuns.NothingBecomesUnreadable` | services/crypto-service/src/kek_store.rs:896-1037 | After any interleaving of encrypts, rotations, rolls, generations and seal changes, each response ever returned decrypts for its tenant and associated data to exactly its plaintext, and for nobody else. |
| `KeyStoreRuns.OperationBudget` | services/crypto-service/src/kek_store.rs:590-633 | No key id is selected more than 100,000 times, and n selections adopt exactly ceil(n / 100,000) DEKs, however callers race. |
| `KeyStoreRuns.MetadataDescribesKey` | services/crypto-service/src/kek_store.rs:1011-1037 | Version counts rotations, the wrapped form opens to the live key under the tenant's one KEK, and no later step removes the key from the chain. |
| `KeyStoreRuns.EncryptAdvances` | services/crypto-service/src/grpc.rs:107-147 | In every reachable state each lock section brings an encryption nearer to its response, within six; the response is sealed under the material its key has then; it ends unanswered if and only if it needs a new KEK while sealed. |
| `KeyVersions.SealedUnderNewest` | services/crypto-service/src/kek_store.rs:880-882 | Whatever step issues a response, it is sealed under the newest material of a key that its tenant owns. |
| `KeyVersions.RetiredNeverEncrypts` | services/crypto-service/src/grpc.rs:132-139 | For any run and any continuation of it, no response issued from then on is sealed under material that was superseded by then. |
| `KeyVersions.RotationTakesEffect` | services/crypto-service/src/kek_store.rs:1011-1037 | From the moment a rotation commits and until the next, every response under that key, whenever asked for, is sealed under the material the rotation drew. |
| `KeyRequests.ResponseRequested` | services/crypto-service/src/grpc.rs:107-118 | In every run each response goes back to an encryption that its own tenant asked for, not blank and not of nothing, with that plaintext and associated data. |
| `KeyRequests.KeyChangeRequested` | services/crypto-service/src/kek_store.rs:989-1037 | In every run a key appears only for a tenant that asked for one, with one version, and changes only by a rotation that its owner asked for, which retires the old material behind the drawn one. |
| `WarmLoad.LoadCaches` | services/crypto-service/src/kek_store.rs:289-486 | The two row loops leave the caches that loading row by row defines: skipped rows, root-key fallback and demotion included. The load succeeds if and only if the vault is open and both queries answered; a failed one leaves the DEKs alone. |
| `WarmLoad.UnwrapDekIff` | services/crypto-service/src/kek_store.rs:410-446 | A row unwraps to a key if and only if it is that key sealed for reload under the tenant's KEK, or for transport under a root key that is at hand. |
| `WarmLoad.HydrateRows` | services/crypto-service/src/kek_store.rs:795-844 | The version loop builds the entry whose current key is the last row that unwraps and whose chain is the rest. |
| `WarmLoad.HydrateIff` | services/crypto-service/src/kek_store.rs:795-844 | Rows hydrate to an entry, for the tenant named, if and only if one of them unwraps. |
| `WarmLoad.LoadHolds` | services/crypto-service/src/kek_store.rs:449-478 | A load adds to a chain exactly the keys its rows unwrap to, and removes none. |
| `WarmLoad.LoadOwner` | services/crypto-service/src/kek_store.rs:456-478 | Over any caches and rows, a load keeps the owner of a cached key, and gives a new one the tenant of a row of its id. |
| `WarmLoad.ReloadEndsOnNewest` | services/crypto-service/src/sys.rs:175-180 | Loading over populated caches ends on the newest row's material, wrapped form and version, and keeps every key that decrypted before. |
| `WarmLoad.WarmLoadIsHydration` | services/crypto-service/src/kek_store.rs:379-480 | From an empty cache, the loaded entry of a key is what hydrating its rows builds. |
| `WarmLoad.HydrationRefinesWarmLoad` | services/crypto-service/src/kek_store.rs:777-846 | The version query's answer hydrates to the same entry as the warm answer, however the database orders it. |
| `KeyTable.WindowIsNewest` | crates/wslvault-storage/src/key_store.rs:352-389 | The window is the newest loadable rows of the purpose: the table can be cut so that every one of them from the cut on is in it and none before, and it is full unless it holds them all. |
| `DatabaseStore.KeyDescriptorTable.InsertRow` | storage/postgres/init/001_schema.sql:26-41 | A row is appended unless it clashes with the primary key or the KEK index, names an unregistered tenant, or the statement is not carried out; success is reported only if acknowledged. |
| `DatabaseStore.KeyDescriptorTable.UpdateState` | crates/wslvault-storage/src/key_store.rs:392-407 | Every version of a key takes the new state, and nothing else changes; a statement that is not carried out changes nothing. |
| `DatabaseStore.GetOrCreateTenantKek` | services/crypto-service/src/kek_store.rs:496-578 | A cached KEK is answered and nothing is written; a new one is cached, and opens for its tenant, whether or not its row is taken; success means the row is in the table. |
| `DatabaseStore.GenerateAndStoreDek` | services/crypto-service/src/kek_store.rs:643-711 | Caches and table after minting, on success and on each failure; success means that the drawn key is cached as version 1 for its tenant and that its row is the last of the table. |
| `DatabaseStore.CurrentDekForEncrypt` | services/crypto-service/src/kek_store.rs:590-633 | With budget left, the current key is answered, one more operation is spent and nothing else changes; otherwise a key is minted and becomes current with one operation spent, or the failure leaves the current one. |
| `DatabaseStore.HydrateKey` | services/crypto-service/src/kek_store.rs:777-846 | Fetching one key on demand: an id that is no UUID, no row and no owner are found to be nothing, a failing query is an error; under the KEK of the tenant that the first row names, it is found if and only if some row unwraps, and only that key can change. |
| `DatabaseStore.RotateDek` | services/crypto-service/src/kek_store.rs:989-1094 | Caches and table after a rotation, including what a failed UPDATE and a refused or failed INSERT leave; unknown and foreign keys are refused with nothing changed; success means version plus one in memory and table, the older rows retiring. |
| `PersistenceRuns.RunKeeps` | services/crypto-service/src/kek_store.rs:289-1094 | Along every prudent run, with any statement and any load failing, what memory and table hold of each key agree and everything issued stays stored. |
| `PersistenceRuns.StepKeeps` | services/crypto-service/src/kek_store.rs:289-1094 | Each operation keeps that invariant. |
| `PersistenceRuns.EncryptServesIff` | services/crypto-service/src/grpc.rs:107-147 | An encryption is answered if and only if its plaintext is not empty and a current key has budget left, or the tenant has or is granted its KEK, is registered, and the new key's row is acknowledged; what is answered is recorded as issued. |
| `PersistenceRuns.TenantKekServesIff` | services/crypto-service/src/kek_store.rs:496-573 | A tenant gets a KEK if and only if memory has one, or the vault is open, the tenant registered, the table without one, and the INSERT acknowledged. |
| `PersistenceRuns.LoadKeeps` | services/crypto-service/src/sys.rs:175-197 | An unseal keeps it, whether its warm load succeeds or fails at either query, when the window splits no issued key that the load would add to the cache. |
| `PersistenceRuns.HydrateKeeps` | services/crypto-service/src/kek_store.rs:777-846 | Hydration keeps it when the KEK at hand opens every recoverable row of the key or none. |
| `PersistenceRuns.ReplicateKeeps` | services/replication-agent/src/applier.rs:93-123 | A peer's DEK keeps it; a new id of a registered tenant is stored, readable with the shared root key, and anything else changes nothing. |
| `PersistenceRuns.IssuedReadableIff` | services/crypto-service/src/grpc.rs:162-221 | Under the invariant an issued response reads back, to its plaintext, if and only if its key is reached and tenant and associated data are its own; the errors for everyone else. |
| `PersistenceRuns.FailedLoadReadsIff` | services/crypto-service/src/sys.rs:179-197 | After a restart and a warm load that failed at either query, an issued response reads back if and only if the KEK query had succeeded or the table holds no KEK for its tenant; otherwise the read is an error. |
| `PersistenceRuns.CiphertextsSurvive` | services/crypto-service/src/kek_store.rs:777-846 | Every ciphertext issued along any prudent run of requests, registrations, replications, failures, restarts and seal cycles decrypts after a restart and load to its plaintext, and to an error for anyone else. |
| `CurrentKeys.EncryptSpends` | services/crypto-service/src/kek_store.rs:590-633 | An answered encryption is sealed under a key that has just spent one operation: the current one while fewer than 100,000 are spent, else a new one that takes its place; a blank tenant or an empty plaintext is refused with nothing changed. |
| `CurrentKeys.DatabaseBudget` | services/crypto-service/src/kek_store.rs:590-633 | In every run with a database, restarts and failures included, each key id seals at most 100,000 responses, and between restarts n responses of a tenant use exactly ceil(n / 100,000) keys. |
| `CurrentKeys.RotationTakesEffect` | services/crypto-service/src/kek_store.rs:880-882 | After a rotation, and until the next, a restart or a load, every response under that key is sealed under the material the rotation drew. |
| `PersistenceRuns.CreatingKekDurableIff` | services/crypto-service/src/kek_store.rs:541-573 | A created KEK is durable if and only if the tenant is registered, the table held none for it and the INSERT was carried out; it is reported as created if and only if that was acknowledged too. |
| `DurabilityLimits.HydrationWholeIff` | services/crypto-service/src/kek_store.rs:796-824 | Hydration rebuilds a key's whole chain, or none of it, if and only if the KEK at hand opens every recoverable row, or none. |
| `DurabilityLimits.SealedHydrationIff` | services/crypto-service/src/kek_store.rs:796-824 | While sealed that is: under the stored KEK, no row of the key needs the root key, or every row does. |
| `DurabilityLimits.RotationDurableIff` | services/crypto-service/src/kek_store.rs:1046-1091 | A rotation reaches the table if and only if a further version of the id may live there, the tenant is registered, both statements are carried out and the KEK in memory is the stored one; the new key is live either way, and under the shipped primary key no saved key can take a version more. |
| `DurabilityLimits.WindowCompleteIff` | services/crypto-service/src/kek_store.rs:379-480 | A load leaves a key whole or unloaded if and only if its tenant has no stored KEK or the window does not split its rows. |
| `DurabilityLimits.MintingDurableIff` | services/crypto-service/src/kek_store.rs:681-709 | A minted key can be read back from the table if and only if the cached KEK is the stored one, the tenant is registered and the INSERT was carried out; the caller hears of success without the first. |
| `DurabilityLimits.EncryptDurableIff` | services/crypto-service/src/kek_store.rs:590-711 | What an encryption issues reads back from a process that starts from the table if and only if the key it was about to use was saved. |
| `DurabilityLimits.UnregisteredTenantLosesWrites` | storage/postgres/init/027_system_tenant.sql:14-20 | A request before the tenant is registered is refused; after the registration the next one succeeds, and what it issued is unreadable after a restart. |
| `DurabilityLimits.MisspelledTenantLosesSlotIff` | services/crypto-service/src/kek_store.rs:523-573 | A tenant's first KEK can be read back if and only if the id was spelled canonically; otherwise the call succeeds, the slot is taken by a row that opens for neither spelling, and after a restart the canonical spelling is refused a KEK. |
| `DurabilityLimits.SealedUntilOpened` | services/crypto-service/src/kek_store.rs:496-539 | From a sealing until the next unseal, in every run, the process has no root key and no tenant gets a KEK that it did not have. |
| `DurabilityLimits.ReadsBackIff` | services/crypto-service/src/kek_store.rs:896-932 | A process that starts from the table and loads it reads an envelope back if and only if the table stores the material that sealed it. |
| `DurabilityLimits.RotationLosesLaterWrites` | storage/postgres/init/001_schema.sql:26-27 | Under the shipped primary key, what is encrypted after a rotation reads back now and fails after a restart. |
| `Sealing.Seal.Load` | crates/wslvault-core/src/seal.rs:148-153 | Persisted material is adopted, sealed and with nothing pending. |
| `Sealing.Seal.UnsealWithRootKey` | crates/wslvault-core/src/seal.rs:161-165 | The legacy path puts a root key in memory and leaves the material alone. |
| `Sealing.Seal.Init` | crates/wslvault-core/src/seal.rs:175-243 | An init succeeds if and only if 1 <= threshold <= shares and there is no material; an initialized vault refuses as such, an impossible threshold as such, and refusals change nothing; success adopts new material, sealed and with nothing pending, and returns the shares. |
| `Sealing.Seal.SubmitShare` | crates/wslvault-core/src/seal.rs:255-290 | One submission, with every refusal by its error and without effect, the duplicate check and the 8-bit progress comparison. |
| `Sealing.Seal.Recover` | crates/wslvault-core/src/seal.rs:292-344 | Reconstruction, check value, decryption, and which failures clear the pending shares. |
| `Sealing.Seal.CurrentStatus` | crates/wslvault-core/src/seal.rs:385-393 | What is reported: sealed or not, threshold, shares and progress, of the material and what is pending. |
| `Sealing.Seal.Close` | crates/wslvault-core/src/seal.rs:347-351 | Sealing drops the root key and the pending shares and keeps the material. |
| `Sealing.Seal.ResetProgress` | crates/wslvault-core/src/seal.rs:354-356 | Only the pending shares are dropped. |
| `Sealing.ProgressCountsShares` | crates/wslvault-core/src/seal.rs:246-290 | Below the threshold, what is pending is the different shares sent since the last clear, in order and whoever dealt them; the answer reports their number, sealed, with the threshold and shares of the material. |
| `Sealing.AttemptIff` | crates/wslvault-core/src/seal.rs:292-344 | The submission that completes the threshold opens the vault if and only if the shares sent recover the key of the check value and it opens the material; what it then reports; after a failure, which error and exactly which shares stay pending. |
| `Sealing.FewerSharesNeverUnseal` | crates/wslvault-core/src/seal.rs:281-290 | From any cleared state, fewer than `threshold` different shares never open the vault, whatever is sent and repeated. |
| `Sealing.MakeIsWellMade` | crates/wslvault-core/src/seal.rs:205-224 | Under the library's contract, what an init makes opens with any threshold of its shares. |
| `Sealing.ThresholdOpensIff` | crates/wslvault-core/src/seal.rs:255-344 | Any threshold of shares, in any order, open loaded material that asks for as many, to its root key, if and only if they are shares of its unseal key; if it asks for more they stay pending; it never opens to another key. |
| `Sealing.OpensOnlyToSealedRoot` | crates/wslvault-core/src/seal.rs:299-344 | Whatever is submitted, a process opens to nothing but the root key sealed in the material it loaded. |
| `SealRuns.RunKeeps` | services/crypto-service/src/sys.rs:110-164 | The invariant across replicas, restarts, racing inits and lost acknowledgements. |
| `SealRuns.RowWrittenOnce` | crates/wslvault-storage/src/seal_store.rs:38-62 | Once written, the persisted row never changes. |
| `SealRuns.UndisturbedInitAnswersIff` | services/crypto-service/src/sys.rs:110-164 | An init that nothing disturbs answers with shares if and only if it passes its check, the row was empty and the save acknowledged; it leaves the process sealed over what it made, whatever the save did, and the row filled unless out of reach. |
| `SealRuns.InitStartsIff` | crates/wslvault-core/src/seal.rs:193-202 | In any state an init passes its check if and only if the process runs, has no material, and 1 <= threshold <= shares. |
| `SealRuns.MaterialChangesOnly` | crates/wslvault-core/src/seal.rs:193-202 | In every run the material of a process changes only when it starts, to what the row holds, or at the commit of an init that began while it had none. |
| `SealRuns.StartKnowsTheRow` | services/crypto-service/src/main.rs:125-150 | After any run, a process that starts is sealed over the row; only where there is no row does it run on the root key it was given. |
| `SealRuns.ReleasedSharesOpenTheVault` | services/crypto-service/src/sys.rs:110-164 | At most one init ever returns shares; the row is its material, and any threshold of the shares, in any order, open a fresh process to the generated root key. |
| `SealRuns.HeldRootIsTheSealedOne` | crates/wslvault-core/src/seal.rs:255-344 | A root key held beside material is the one sealed in it; without material it is the legacy key. |
| `SealRuns.RootStableAcrossCycles` | crates/wslvault-core/src/seal.rs:347-351 | Across any seal and unseal cycles over the same material, the root key is the same. |
| `SealRuns.ReleasedSharesOpenProcessIff` | services/crypto-service/src/sys.rs:134-143 | The released shares open a running process if its memory agrees with the row, and only then if it asks for no fewer of them; whatever it opens to is sealed in its own material. |
| `SealRuns.OverlappingInitsStrand` | crates/wslvault-core/src/seal.rs:193-234 | In any run with two overlapping inits of one process, the answered shares do not open the process that answered, or at most to a root key in no row when its material asks for fewer. |
| `SealRuns.AdoptingCustodyReplacesRoot` | services/crypto-service/src/main.rs:141-150 | An init on a process started with a root key ends with the generated key instead. |
| `SecretSharing.QuotientLaw` | crates/wslvault-core/src/seal.rs:212-217 | Over any field, p(x) - p(a) is (x - a) times the quotient polynomial. |
| `SecretSharing.Interpolates` | crates/wslvault-core/src/seal.rs:299-304 | Any points, at least as many as the coefficients, give back the polynomial's value at zero. |
| `SecretSharing.ShamirMeetsContract` | crates/wslvault-core/src/seal.rs:212-217 | Shamir's scheme, over any field with 255 different elements besides zero, meets what the seal asks of its sharing library. |
| `SecretSharing.ContractCanBeMet` | crates/wslvault-core/src/seal.rs:299-304 | The reals give an instance. |
| `ByteField.InverseWorks` | crates/wslvault-core/src/seal.rs:42 | In the byte field every element but zero has an inverse, its power 254. |
| `ByteSharing.ByteLaws` | crates/wslvault-core/src/seal.rs:42 | Bytes under exclusive or and multiplication modulo x^8 + x^4 + x^3 + x^2 + 1 are a field. |
| `ByteSharing.BytesMeetContract` | crates/wslvault-core/src/seal.rs:212-217 | The byte scheme, with shares at 1 to 255, meets the seal's contract for every key, threshold and number of shares. |
| `ShareSecrecy.FitLaw` | crates/wslvault-core/src/seal.rs:212-217 | Over any field, any values at different points are those of a polynomial with as many coefficients. |
| `ShareSecrecy.FewSharesRevealNothing` | crates/wslvault-core/src/seal.rs:212-217 | Fewer than `threshold` shares of one secret are also dealt for every other secret of its length, for some random coefficients. |
| `ByteSharing.FewBytesRevealNothing` | crates/wslvault-core/src/seal.rs:205-217 | In the byte scheme, fewer than `threshold` shares of one 32-byte key are also dealt for every other 32-byte key, for some random coefficients. |
| `AuditMessage.DecimalInjective` | services/audit-service/src/integrity.rs:126-143 | The printed position determines the number. |
| `AuditMessage.MessageLayout` | services/audit-service/src/integrity.rs:126-143 | The twelve fields stand in this order with one NUL between each two. |
| `AuditMessage.SplitJoinIff` | services/audit-service/src/integrity.rs:126-143 | The splitter returns the joined fields if and only if none holds a NUL, and otherwise more of them. |
| `AuditMessage.MessageInjective` | services/audit-service/src/integrity.rs:126-143 | A message with NUL-free texts fixes every field, the position and the link, among all records. |
| `AuditMessage.MessageUniqueIff` | services/audit-service/src/integrity.rs:117-121 | A message stands for one record if and only if its seven texts are free of NUL. |
| `AuditMessage.HexDecodeIff` | services/audit-service/src/integrity.rs:107-110 | A signature text decodes to given bytes if and only if it is their encoding up to letter case. |
| `AuditChain.VerifyIff` | services/audit-service/src/integrity.rs:92-115 | Verification accepts the computed signature, in any letter case, and nothing else. |
| `AuditChain.TamperEvident` | services/audit-service/src/integrity.rs:84-143 | Two linked logs that verify under one key and share a tip signature are equal record for record, or exhibit a MAC collision. |
| `AuditChain.AppendExtends` | services/audit-service/src/pg_store.rs:85-103 | Signing at the tip extends a linked, verifying log. |
| `AuditChain.LinkedIff` | storage/postgres/init/022_audit_hash_chain.sql:73-93 | The structural check, with a look at the lowest-numbered record, passes if and only if the rows, in whatever order stored, make up a well-linked log. |
| `AuditChain.DeletionPassesIff` | crates/wslvault-storage/src/audit_store.rs:155-160 | Deleted records escape the structural check and all signatures if and only if one unbroken stretch is left, in whatever order it is stored. |
| `AuditChain.OneOrder` | storage/postgres/init/022_audit_hash_chain.sql:77-83 | Rows with different numbers have exactly one order by number. |
| `AuditWriters.TrimKeepsMiddle` | crates/wslvault-storage/src/audit_store.rs:69-76 | Trimming an address drops outer white space and nothing else. |
| `AuditWriters.ReadBackVerifiesIff` | services/audit-service/src/pg_store.rs:149-163 | A stored row verifies if and only if every column returned what was written and the reader names the tenant as the writer did, collisions aside. |
| `AuditWriters.TipIsNewest` | storage/postgres/init/022_audit_hash_chain.sql:57-66 | On an intact chain the tip query gives the newest record's position and signature. |
| `AuditWriters.AuditTable.ReadTip` | storage/postgres/init/022_audit_hash_chain.sql:57-66 | The scan returns the tenant's highest number and its signature. |
| `AuditWriters.AuditTable.InsertEventChained` | crates/wslvault-storage/src/audit_store.rs:79-153 | One append: it succeeds if and only if the tenant is a UUID, no text holds a NUL and the address is blank or a valid one; the answer is the position and link of the row it stored, signed as supplied; otherwise an error and no row. |
| `AuditWriters.AppendIff` | crates/wslvault-storage/src/audit_store.rs:60-153 | Exactly when an append succeeds, on the event and the columns alone; the error otherwise; what the new row holds, a blank address as nothing; and on an intact chain the position after the tip. |
| `AuditWriters.CommittedRowsStore` | crates/wslvault-storage/src/audit_store.rs:79-153 | In every run each committed row is what the columns keep of an event that could be stored, field by field. |
| `AuditWriters.ChainsNeverFork` | crates/wslvault-storage/src/audit_store.rs:79-153 | For every interleaving of appenders and aborts, each tenant's chain is numbered 1 to n, linked, and each record signed for its position. |
| `AuditWriters.CommittedChainsVerify` | services/audit-service/src/pg_store.rs:85-103 | Where a tenant's columns round-trip, every committed record of its chain verifies where it stands. |
| `AuditWriters.RowsOnlyGrow` | crates/wslvault-storage/src/audit_store.rs:79-153 | Committed rows are never changed or removed. |
| `AuditWriters.SoloAppend` | crates/wslvault-storage/src/audit_store.rs:79-153 | Left alone, the transaction's steps do what the uninterrupted append does. |
| `AuditQuery.InMemoryAuditStore.InsertRecord` | services/audit-service/src/store.rs:126-137 | A record is numbered and linked after the last one of the whole store. |
| `AuditQuery.InMemoryAuditStore.QueryEvents` | services/audit-service/src/store.rs:139-178 | The page and the total are those of filter, skip and take; every record of the page is in the store and within the tenant, time, action and principal asked for, and there are no more than the limit, if one is given. |
| `AuditQuery.InsertionsLink` | services/audit-service/src/store.rs:126-137 | Any run of insertions keeps what was supplied, in order, numbered from 1 and linked. |
| `AuditQuery.PagesConcatenate` | services/audit-service/src/store.rs:139-178 | Pages at successive offsets concatenate to exactly the matching records, each once and in insertion order, and agree on the total. |
| `AuditQuery.MatchingAsked` | services/audit-service/src/store.rs:139-178 | The matching records are exactly those in the store that meet each bound that was given. |
| `AuditQuery.UnlimitedQuery` | services/audit-service/src/store.rs:139-178 | A limit of zero means none: all matching records from the offset on. |
| `Invitations.InvitationStore.Redeem` | crates/wslvault-storage/src/invitation_store.rs:158-226 | Key and claim together if and only if the key is accepted and the token is there, unused and not expired; otherwise neither. |
| `Invitations.RedeemedIff` | crates/wslvault-storage/src/invitation_store.rs:158-255 | Exactly when a redemption is granted, what it then leaves, and exactly when it is refused as not found, already used or expired. |
| `Invitations.InvitationStore.Revoke` | crates/wslvault-storage/src/invitation_store.rs:286-300 | Only an unused invitation of that tenant is deleted, and the answer says whether one was. |
| `Invitations.InvitationStore.ReapExpired` | storage/postgres/init/031_tenant_invitations.sql:106-119 | Exactly the unused invitations expired for 7 days and the used ones of 90 days ago go, and the answer counts them. |
| `Invitations.RunKeeps` | crates/wslvault-storage/src/invitation_store.rs:158-255 | The invariant over every interleaving, row waits and lost acknowledgements included. |
| `Invitations.SingleUse` | crates/wslvault-storage/src/invitation_store.rs:158-226 | Used invitations, reaped ones included, and minted keys are in bijection, a refused redemption minted nothing, and no invitation is granted twice. |
| `Invitations.UsedForGood` | storage/postgres/init/031_tenant_invitations.sql:50-52 | A used invitation is never freed, reassigned or claimable again by any later step; it leaves the table only by a reaper more than 90 days after its use. |
| `Invitations.UsedInTime` | crates/wslvault-storage/src/invitation_store.rs:185-189 | In every run every used invitation, reaped or not, was used before it expired. |
| `Invitations.SoloRedemption` | crates/wslvault-storage/src/invitation_store.rs:158-226 | Left alone, the transaction's steps do what the uninterrupted redemption does. |
| `Mfa.EnrolmentTable.UpsertPending` | crates/wslvault-storage/src/mfa_store.rs:66-98 | Enrolling starts or restarts an unconfirmed enrolment and is refused over a confirmed one. |
| `Mfa.EnrolmentTable.Confirm` | crates/wslvault-storage/src/mfa_store.rs:119-153 | Confirming sets the step and makes the key demand a code, both or neither. |
| `Mfa.EnrolmentTable.TryConsumeStep` | crates/wslvault-storage/src/mfa_store.rs:162-180 | A step is recorded exactly when it is above the last. |
| `Mfa.EnrolmentTable.Delete` | crates/wslvault-storage/src/mfa_store.rs:183-192 | The enrolment goes and no other changes. |
| `Mfa.StepsStrictlyIncrease` | crates/wslvault-storage/src/mfa_store.rs:162-180 | Across concurrent transactions, accepted steps strictly increase until a reset or confirmation, starting above the confirming step (section 5.2 of RFC 6238). |
| `Mfa.SecondFactorIsNotSwapped` | crates/wslvault-storage/src/mfa_store.rs:61-98 | Once confirmed, a secret stays the same until it is removed. |
| `Mfa.ConfirmsProvedSecretIff` | services/identity-service/src/api_keys.rs:2335-2382 | In every run, a confirmation confirms the secret that its code was checked against if and only if the last enrolment committed since the read, if any, was with that secret. |
| `Mfa.ConfirmsOtherSecret` | crates/wslvault-storage/src/mfa_store.rs:126-131 | The run: a code is checked, another enrolment commits, and the other secret is confirmed. |
| `Mfa.ReplayIff` | crates/wslvault-storage/src/mfa_store.rs:119-180 | In every run, a step that was accepted is accepted again if and only if a confirmation at a lower step, or a new enrolment, came in between and no step as high was accepted since. |
| `Mfa.ReconfirmingReplays` | services/identity-service/src/api_keys.rs:2335-2382 | The run: a code is accepted, an older code still in its window confirms again, and the first is accepted anew. |
| `Mfa.RecoveryCodes.Replace` | crates/wslvault-storage/src/mfa_store.rs:195-228 | The codes become the given ones, all unused, if and only if they are distinct; otherwise nothing changes. |
| `Mfa.RecoveryCodes.Consume` | crates/wslvault-storage/src/mfa_store.rs:257-283 | Every unused code among the candidates is spent, and the answer says whether there was one. |
| `Mfa.UseSpendsOneIff` | crates/wslvault-storage/src/mfa_store.rs:262-269 | A use spends one code if and only if one unused code is among its candidates. |
| `RecoveryRuns.RunKeeps` | crates/wslvault-storage/src/mfa_store.rs:195-283 | The invariant over every interleaving of logins and replacements at row granularity, waits and aborts included. |
| `RecoveryRuns.UsesWithinAllowance` | crates/wslvault-storage/src/mfa_store.rs:195-283 | In every run, the uses committed since the last replacement and the codes still unused are together at most the codes of that replacement and of those that committed while it was under way. |
| `RecoveryRuns.UsesNeverExceedCodes` | crates/wslvault-storage/src/mfa_store.rs:230-233 | After a replacement that no other overlaps, committed uses never exceed the number of its codes. |
| `RecoveryRuns.ReplacementEndsOldCodesIff` | services/identity-service/src/api_keys.rs:2534-2536 | A replacement leaves only its own codes if and only if nothing is left of replacements that committed after its DELETE began. |
| `RecoveryRuns.OverlappingReplacementsAddUp` | services/identity-service/src/api_keys.rs:2619-2708 | A run of two overlapping reissues after which both sets of codes are good: two uses follow a set of one. |
| `RecoveryRuns.IndexedRun` | storage/postgres/init/026_mfa_totp.sql:76 | In every run no two committed codes of a key share a hash, nor will they when the open transactions commit. |
| `RecoveryRuns.EveryCodeWorks` | crates/wslvault-storage/src/mfa_store.rs:257-283 | The bound is attained: from any run with nothing open, the unused codes can all be used, one login each. |
| `RecoveryRuns.SoloLoginIsConsume` | crates/wslvault-storage/src/mfa_store.rs:257-283 | Left alone, in whatever order it visits its rows, the transaction of a login spends the codes and gives the answer proved of the class. |
| `RecoveryRuns.SoloReplacementIsReplace` | crates/wslvault-storage/src/mfa_store.rs:195-228 | Left alone, in whatever order its DELETE visits the rows, the transaction of a replacement leaves the given codes and no others, all unused, or, if a hash repeats, every row as it was. |
| `LeaderElection.LockServer.TryAdvisoryLock` | crates/wslvault-cluster/src/leader.rs:188-201 | The lock is re-entrant for its session and free to the first comer; a dead session, an unreachable server and a lost reply are errors, the last with the lock granted. |
| `LeaderElection.LeaderElector.RunOnce` | crates/wslvault-cluster/src/leader.rs:110-175 | One turn of the loop: the flag is up afterwards if and only if the session at hand is live, answered and holds the lock, and the connection is kept if and only if it is live and answered. |
| `LeaderElection.AtMostOneLeader` | crates/wslvault-cluster/src/leader.rs:98-176 | In every run at most one node has its flag up over a live lock session. |
| `LeaderElection.LiveLeaderStays` | crates/wslvault-cluster/src/leader.rs:180-187 | A live leader's next answered attempt keeps it leader, whatever happens meanwhile. |
| `LeaderElection.DeadSessionClears` | crates/wslvault-cluster/src/leader.rs:123-175 | A node whose session ended takes its flag down when its next attempt completes. |
| `LeaderElection.StrandedLock` | crates/wslvault-cluster/src/leader.rs:126-130 | A lock on a session that went back to the pool blocks every elector until that session ends or is handed out again. |
| `LeaderElection.StrandLiftsIff` | crates/wslvault-cluster/src/leader.rs:126-130 | One step lifts a strand if and only if it ends that session or hands it to a node that asks for one. |
| `LeaderElection.ErrorStrandsLock` | crates/wslvault-cluster/src/leader.rs:126-130 | A failed query, or a grant whose reply is lost, strands the lock: others lose until the session ends, and the same node wins if it gets the session back. |
| `LeaderElection.RoundIsThreeSteps` | crates/wslvault-cluster/src/leader.rs:110-175 | The turn proved of the class is the state machine's three steps in a row. |
| `JwksCache.Cache.MayFetch` | crates/wslvault-core/src/auth.rs:211-219 | The gate under the mutex fetches if and only if nothing was fetched yet or ten seconds have passed, and then renews the stamp. |
| `JwksCache.Cache.Adopt` | crates/wslvault-core/src/auth.rs:233-243 | The loop merges the well-formed entries in order and skips the rest. |
| `JwksCache.MergeAt` | crates/wslvault-core/src/auth.rs:233-243 | A document leaves of each kid its last well-formed entry, or what was cached if it has none. |
| `JwksCache.MergeKeeps` | crates/wslvault-core/src/auth.rs:233-243 | A merge takes every well-formed entry, keeps every cached key and admits only 32-byte issuer keys. |
| `JwksCache.WindowBound` | crates/wslvault-core/src/auth.rs:163 | Stamps ten seconds apart put at most floor(T / 10 s) + 1 in a window of length T. |
| `JwksCache.FetchesSpacedAndKeysGenuine` | crates/wslvault-core/src/auth.rs:186-246 | Under any interleaving of misses the bound holds, and every key answered is the issuer's 32-byte key for its kid. |
| `JwksCache.MissFetchesIff` | crates/wslvault-core/src/auth.rs:186-219 | In every run a lookup that misses fetches if and only if an issuer is configured and nothing was fetched yet or the last fetch is ten seconds old; what each of the other misses is answered. |
| `JwksCache.FetchedKeyIsAnswered` | crates/wslvault-core/src/auth.rs:187-200 | Once a document lists a kid, every later lookup of it answers the issuer's key. |
| `SqlIdentifier.Validate` | crates/wslvault-connectors/src/postgres_rotation.rs:456-473 | Accepted are the names of 1 to 63 bytes without NUL. |
| `SqlIdentifier.QuoteIdentifier` | crates/wslvault-connectors/src/postgres_rotation.rs:477-479 | The loop produces the quoted form. |
| `SqlIdentifier.QuoteRoundTripIff` | crates/wslvault-connectors/src/postgres_rotation.rs:477-479 | A reader of delimited identifiers (section 5.2 of ISO/IEC 9075-2) returns the identifier and the text that follows if and only if that text does not begin with a quote. |
| `SqlIdentifier.ReadBodyInverse` | crates/wslvault-connectors/src/postgres_rotation.rs:477-479 | Whatever the reader accepts is a quoted identifier and its continuation. |
| `SqlIdentifier.QuoteInjective` | crates/wslvault-connectors/src/postgres_rotation.rs:477-479 | Different identifiers quote differently. |

## Left out

- AES-GCM, HKDF, HMAC, SHA-256, base64 and zeroization internals: libraries the repository calls; nonces and ciphertext bytes do not appear.
- The sharing library itself: its contract is stated, and met by Shamir's scheme over the byte field, but the library's tables and share encoding are not part of this model.
- In database mode each public method runs to completion and restarts happen between methods; crashes in the middle of an operation and hydration racing rotation are not modelled, and the code gives no guarantee there.
- PersistenceRuns.CiphertextsSurvive: asks what `Prudent` says of three kinds of step, each with the lemma that shows the guard exact: an encryption whose key is not saved (`EncryptDurableIff`, and `MisspelledTenantLosesSlotIff` for the spelling), a hydration of some rows and not others (`HydrationWholeIff`), and a load of some rows of an issued key and not others (`WindowCompleteIff`). Refused requests, sealed reads, failed statements and failed loads are all allowed.
- KeyVersions.RetiredNeverEncrypts: takes it that the random source never draws 32 bytes that are a key already; likewise the runs of `CurrentKeys` and `PersistenceRuns` take it that minted ids are new.
- SealRuns.ReleasedSharesOpenProcessIff: of a process that disagrees with the row and asks for fewer shares than were dealt for, only to which key it can open; the library promises nothing for fewer shares, and `FewSharesRevealNothing` shows that they determine nothing.
- Versions are unbounded numbers: the 32-bit version column and its overflow do not appear. Rows keep creation order, so two rows with equal `created_at` at the edge of the window are not told apart from distinct ones.
- Emission of replication events, and replication of anything but DEKs.
- Metadata queries, unwrapping of tenant KEKs and generation contexts of the crypto-service: single reads.
- Listing of invitations and lookup by token: single reads.
- Invitations.UsedForGood: takes it that a token, 256 random bits, is not drawn again after the invitation that used it was reaped.
- RecoveryRuns.UsesNeverExceedCodes: the rows of one key; deletion of the API key, which cascades to them, is not a step, and neither is the enrolment row, whose lock keeps two enrolments, or two proofs by authenticator, from overlapping.
- Invitations.SingleUse: a minted key's tenant is whatever the caller put in it; the source checks it against the invitation in debug builds only.
- LeaderElection.AtMostOneLeader: says nothing of the heartbeat rows in `cluster_nodes`, which are advisory.
- Identity resolution from headers and tokens (`resolve_identity`): a precedence of independent checks without state.
- The PostgreSQL query of audit events: the same filter in SQL, ordered by time.
- Transit keys, secrets, policies, leases, quotas, connectors, SDKs, CLI, user interface, health and metrics endpoints: single statements or plumbing that would add only easy members.
