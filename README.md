# tfstate-worker lock arbitration, modelled in Dafny

The worker is a Terraform HTTP remote-state backend. It stores one state blob per
project under the key `USERNAME/projectName.tfstate` in an object bucket. It guards
each key with a lock object, `DurableLock`. That object holds one field, `lockInfo`,
which mirrors a single persisted `"_lock"` entry of its durable storage.

The model has four modules:

- `Records` (records.dfy) holds the `LockInfo` record, `Option` and `byte`. `LockInfo.id`
  is optional because a decoded JSON body may omit `ID`. `HasId` is JavaScript truthiness
  of `lockInfo.ID`.
- `DurableLocks` (durable_lock.dfy) holds the `LockResult` statuses
  `locked | unlocked | already_locked | wrong_id | error`. `LockStep` and `UnlockStep`
  are the transitions as functions of the held state. The class `DurableLock` has the
  `lockInfo` and `storage` fields. Its constructor hydrates the field from storage.
  `Info` returns the field, and `Lock` and `Unlock` are proved against the step functions.
  `Valid()` says that the cached field equals the persisted entry.
- `LockTraces` (lock_traces.dfy) covers runs of serialised `lock`/`unlock` calls. It
  proves mutual exclusion: between two successful locks there is always a successful
  unlock. It also proves that a lock taken with an empty or missing ID is never released.
- `StateGateway` (gateway.dfy) holds the key derivation, the write check and the mapping
  of results to HTTP status codes. The class `Gateway` owns the bucket
  (`map<string, seq<byte>>`) and the lock namespace (`map<string, DurableLock>`). Its
  five handler methods are proved against those functions. Two client methods play the
  lock and write protocol end to end.

A storage call that may fail is modelled by a boolean parameter: the durable storage
`put`/`delete`, and the bucket `get`/`put`. When the call rejects, the exception
propagates, shown as `StorageFailed`. The field is left untouched because the assignment
comes after the `await`. The worker then answers 500 through the web framework's default
error handler. That handler is not part of this model, so the 500 and its `ServerError`
body stand for it.

Two details of the code that a reader may not expect:

- `wrong_id` and `error` echo the caller's record, not the holder's
  (src/durableLock.ts:50,52). So the 423 of a refused unlock carries the caller's record,
  and the 400 carries the caller's record instead of an error message (src/index.ts:121,126).
- `lock` does not check the ID. A lock taken with an empty or missing ID can therefore
  never be released (`LockTraces.EmptyIdLockIsPermanent`).

## Model

| member | source | states |
|---|---|---|
| DurableLocks.LockStep | src/durableLock.ts:34-43 | a held lock is reported back as `already_locked` and never replaced; `locked` is reported exactly from the unlocked state when the write succeeds, and then the state is the caller's record; a rejected write from the unlocked state surfaces as the storage exception with the state unchanged; otherwise the state is unchanged |
| DurableLocks.UnlockStep | src/durableLock.ts:48-58 | a missing or empty ID gives `error` "ID is required" in every state; `unlocked` is reported exactly for the holder's own non-empty ID when the delete succeeds, and then the state is free; `wrong_id` is reported exactly for a non-empty ID when nothing is held or the holder's ID differs; a rejected delete for the holder's ID surfaces as the storage exception with the state unchanged; every result echoes the caller's record; only `unlocked` changes the state |
| DurableLocks.DurableLock.constructor | src/durableLock.ts:15-22 | the field is hydrated from the `"_lock"` entry (absent gives null), so the cache equals storage |
| DurableLocks.DurableLock.Info | src/durableLock.ts:27-29 | returns the field, which is the persisted `"_lock"` entry, and changes nothing |
| DurableLocks.DurableLock.Lock | src/durableLock.ts:34-43 | result and new field follow `LockStep`; storage gains `"_lock"` = the record exactly when `locked` is reported, else stays as it was; cache equals storage afterwards |
| DurableLocks.DurableLock.Unlock | src/durableLock.ts:48-58 | result and new field follow `UnlockStep`; `"_lock"` is removed from storage exactly when `unlocked` is reported, else storage is unchanged; cache equals storage afterwards |
| LockTraces.Outcomes | src/durableLock.ts:34-58 | a serialised run of calls yields one outcome per call |
| LockTraces.OutcomeAt | src/durableLock.ts:34-58 | each call of a run sees the state left by the calls before it |
| LockTraces.ReleasedBetween | src/durableLock.ts:51-57 | if the state goes from held to free between two points of a run, some call in between reported `unlocked` |
| LockTraces.MutualExclusion | src/durableLock.ts:36-57 | in any run, from any start state and with any storage failures, two successful `lock` results always have a successful `unlock` between them |
| LockTraces.EmptyIdLockIsPermanent | src/durableLock.ts:34-52 | a lock whose holder has a missing or empty ID survives every run of calls, and no call in the run reports `unlocked` |
| LockTraces.LockThenUnlock | src/durableLock.ts:34-57 | `lock(a)` then `unlock(a)` from free reports `locked` then `unlocked` and leaves the key free |
| LockTraces.ContendedLock | src/durableLock.ts:34-52 | after `lock(a)`, `lock(b)` reports `already_locked` with a's record, and `unlock(b)` reports `wrong_id` with b's record; a still holds the lock |
| StateGateway.StateKey | src/index.ts:64 | the key is `username + "/"`, then the project name, then `".tfstate"`, and the project name can be read back from it |
| StateGateway.StateKeyInjective | src/index.ts:85 | for one user, two projects share a key if and only if they are the same project |
| StateGateway.MayWrite | src/index.ts:89-96 | a write is allowed if and only if no lock is held or the query `ID` is present and equals the holder's ID; with no query `ID` it is allowed exactly when nothing is held |
| StateGateway.ReadResponse | src/index.ts:62-78 | 200 with exactly the stored bytes as JSON if and only if the key is present; 204 with no body if absent; reads depend on the bucket only |
| StateGateway.WriteState | src/index.ts:83-105 | 204 if and only if the write is allowed and the put succeeds, and then the bucket maps the key to the body; a refused write answers 423 with the holder's record; an allowed write whose put fails answers 500; otherwise the bucket is unchanged |
| StateGateway.WriteThenRead | src/index.ts:62-104 | an allowed write answers 204, and a read afterwards answers 200 with exactly the written bytes |
| StateGateway.LockResponse | src/index.ts:143-153 | 423 if and only if `already_locked`, 200 for any other result, each with the result's record as body |
| StateGateway.UnlockResponse | src/index.ts:114-133 | 400 if and only if `error`, 423 if and only if `wrong_id`, each with the result's record; 200 with no body for the remaining result |
| StateGateway.InspectResponse | src/index.ts:162-170 | 204 with no body if and only if no lock is held; otherwise 200 with the holder's record |
| StateGateway.Gateway.constructor | src/index.ts:7-12 | a worker over a bucket and a namespace of valid, distinct lock objects |
| StateGateway.Gateway.Locker | src/index.ts:140 | the key's lock object, created with empty storage on first use; existing objects stay bound to their keys and no key's lock state changes |
| StateGateway.Gateway.GetState | src/index.ts:62-78 | answers `ReadResponse` for the derived key from the bucket alone |
| StateGateway.Gateway.PostState | src/index.ts:83-105 | response and new bucket are `WriteState` over the key's current lock state; the lock namespace is untouched |
| StateGateway.Gateway.PutLock | src/index.ts:136-154 | the key's lock object takes `LockStep`, the response is `LockResponse`; 200 exactly when the key went from free to the caller's record; every other key keeps its object, lock state and storage; the bucket is untouched |
| StateGateway.Gateway.DeleteLock | src/index.ts:107-134 | the key's lock object takes `UnlockStep`, the response is `UnlockResponse`; 200 exactly when the key went from held to free; every other key keeps its object, lock state and storage; the bucket is untouched |
| StateGateway.Gateway.GetLock | src/index.ts:157-171 | answers `InspectResponse` for the key's lock state and changes nothing |
| StateGateway.LockScenario | src/index.ts:107-171 | lock a gives 200 with a; lock b gives 423 with a; unlock b gives 423 with b; unlock a gives 200; inspect gives 204 |
| StateGateway.WriteScenario | src/index.ts:83-154 | under a's lock, a write with any other or no ID gives 423 with a; a write with a's ID gives 204; a read then gives 200 with those bytes |

## Left out

- Routing, the `LOCK`/`PUT` and `UNLOCK`/`DELETE` aliases, and request parsing (`c.req.json`, `c.req.arrayBuffer`, `URL`) are left out. Handlers take already-decoded values. A JSON body that is not an object, and an `ID` that is not a string, are not modelled.
- Basic authentication, the request logger and the `/health` route are left out. They do I/O (`console`) and use randomness (`crypto.randomUUID`).
- The platform's serialisation is taken as given. This covers `blockConcurrencyWhile`, input/output gates and `idFromName`. Each lock-object method is one atomic step, the namespace is a map from key to object, and hydration cannot fail.
- Each handler is one atomic step. Worker requests are not serialised, but the model does not capture that. The POST handler reads the lock with `await locker.info()` and then awaits the bucket `put`. Another client's `lock` can finish between those two awaits, and the write then lands under that client's lock. That check-then-put window is not modelled.
- A key with no lock object yet reads as unlocked. Only the lock and unlock handlers create the object. A fresh object with empty storage is unlocked, so nothing observable differs.
- Bucket internals, durability and headers are left out. The `application/json` content type is recorded only for state reads (`StateJson`). The framework's 500 error page is the `ServerError` body.
- The fields of `LockInfo` other than `id` are strings. The code echoes them verbatim whatever their JSON type.
