# Leader election over one Kubernetes Lease

This project models `lease-test.py`, a leader-election script. Peers compete
for one Kubernetes `Lease` record, and the store's optimistic concurrency is
their only coordination. The model covers:

- the step that updates the lease spec before each write (`update_lease`);
- fetch-or-create (`get_lease`);
- the acquisition loop, which waits while the claim is live, claims the lease
  once it has expired and retries on a 409 Conflict (`acquire_lease`);
- one turn of the leadership loop: compute the renewal deadline, then
  fetch, update and write again.

Modules:

- `LeaseSpec` (`lease_spec.dfy`): the lease spec as a value and the update
  step as a function. It also has the expiration and renewal-deadline
  arithmetic, with every timestamp in integer milliseconds.
  `LEASE_DURATION = 10` s and `RENEW_LEAD_TIME = 500` ms.
- `LeaseStore` (`lease_store.dfy`): the store of the one lease record. It
  keeps a version counter that stands for the resource version. A replace
  succeeds only when it presents the current version. Read, create and
  replace are functions on the store's state. A `Store` class has methods
  proved to follow those functions.
- `Election` (`election.dfy`): a `LeaseObject` class whose `Stamp` method
  makes `update_lease`'s field updates in place. It also has `GetLease`,
  `UpdateLease`, `AcquireLease` (the `while True` loop) and `RenewOnce`, as
  methods over the store. Each is proved equal to a function: `GetLeaseSpec`,
  `ReplaceOp`, `RenewSpec`, and `RoundStep` / `AcquireRun` for the loop.
- `ElectionProperties` (`election_properties.dfy`): lemmas about those
  functions.

The environment is passed in, one `Round` per turn of the loop. A round
holds:

- the clock samples: the one taken before computing the expiration and the
  one `update_lease` takes;
- the infrastructure failure injected into each store call, if any;
- a write by a rival process, if any. The store places it right after this
  process's read, which is where it can defeat a create or a replace.

On these points the model follows the script as written:

- The expiration is `renew_time + LEASE_DURATION`, using the constant. The
  `lease_duration_seconds` stored in the lease is never read.
- Before waiting, the loop never checks whether this process already holds
  the lease. A live lease held by this process is waited out like any other
  (`LiveLeaseBlocksAcquisition`).
- A create that loses the race raises a 409 from `get_lease`, outside the
  `try`, and ends the loop (`CreateRaceAborts`).
- A conflict during steady-state renewal is raised, not turned into a return
  to acquisition (`RenewalConflictRaised`).
- The Kubernetes client's `ApiException.reason` is the HTTP reason phrase.
  So a create that finds the record present raises status 409 with reason
  "Conflict", just as a stale replace does.

## Model

| member | source | states |
|---|---|---|
| `LeaseSpec.Updated` | lease-test.py:39-51 | renew time becomes `now` and duration becomes 10 whatever the prior state. If the prior holder is not `id` (or is unset): holder becomes `id`, acquire time becomes `now`, and the transition count grows by one, giving 1 from an unset or zero count. If the holder is already `id`: holder, acquire time and transitions are unchanged |
| `LeaseSpec.Expiration` | lease-test.py:71 | the lease counts as expired at `now` exactly when it was never renewed or `renew_time + 10000 <= now`; a never-renewed lease expires at `now` |
| `LeaseSpec.RenewDue` | lease-test.py:95 | the renewal deadline is `renew_time + 9500`: after the renew time and strictly before the expiration `renew_time + 10000` |
| `LeaseSpec.RenewalPrecedesExpiry` | lease-test.py:14-16 | a lease written at `now` is still live at its renewal deadline |
| `LeaseSpec.TransitionsCountHolderChanges` | lease-test.py:44-51 | over any history of updates, the transition count grows by exactly the number of holder changes. It never grows on a same-holder renewal |
| `LeaseSpec.ReplayHolderIsLastWriter` | lease-test.py:40-45 | after any non-empty history of updates, the holder is the last writer and the renew time is that write's time |
| `LeaseStore.ReadOp` | lease-test.py:22 | a read succeeds exactly when the record exists and no failure is injected; it returns the stored spec and version. A missing record raises 404 |
| `LeaseStore.CreateOp` | lease-test.py:28-31 | a create succeeds exactly when the record is absent. It stores an empty spec under a new version. A create of a present record raises 409 Conflict and changes nothing |
| `LeaseStore.ReplaceOp` | lease-test.py:53-57 | a replace writes exactly when the presented version is the current one, and bumps the version. A stale version raises 409 Conflict, and a failed replace changes nothing |
| `LeaseStore.Store.Read` | lease-test.py:22 | the store object's read answers as `ReadOp` on its state |
| `LeaseStore.Store.Create` | lease-test.py:28-31 | the store object's create changes its fields and answers as `CreateOp` |
| `LeaseStore.Store.Replace` | lease-test.py:53-57 | the store object's replace changes its fields and answers as `ReplaceOp` |
| `Election.GetLeaseSpec` | lease-test.py:19-31 | a successful read is returned. Only a 404 from the read leads to a create. Any other read error, and any create error, propagates unchanged |
| `Election.RoundStep` | lease-test.py:69-84 | a loop turn waits exactly when the fetched lease is live, and then writes nothing. A fetch error ends the turn with that same error. Once the fetched lease has expired, the turn replaces it. The replace wins exactly when no fault is injected and the version read is still current, and the win stores `Updated` of the fetched spec under the next version. A stale version or an injected 409 Conflict makes the turn retry. Any other replace error ends the turn with that same error, and the store keeps what the fetch left |
| `Election.AcquireRun` | lease-test.py:66-84 | the loop over the given turns never moves the store's version back. When it ends leading, this process is the holder and the store holds exactly the returned lease |
| `Election.RenewSpec` | lease-test.py:34-57 | `update_lease()` with no lease given: a fetch error is returned unchanged. An injected replace failure is returned unchanged, and the replace wins exactly when the version read is still current. A failed renewal writes nothing beyond the fetch. A win stores `Updated` of the freshly fetched spec under the next version |
| `Election.LeaseObject.Stamp` | lease-test.py:39-51 | the in-place field updates leave the object's spec equal to `Updated` of its old spec |
| `Election.GetLease` | lease-test.py:19-31 | fetch-or-create on the store object follows `GetLeaseSpec` |
| `Election.UpdateLease` | lease-test.py:34-57 | with a lease given, it is updated in place and the store is replaced with it under its read version. With none given, the lease is fetched first |
| `Election.AcquireLease` | lease-test.py:66-84 | the loop's result and final store state equal `AcquireRun` over the given rounds |
| `Election.RenewOnce` | lease-test.py:95-97 | the renewal deadline is `RenewDue` of the last written renew time. The renewal then fetches, updates and replaces, following `RenewSpec` |
| `ElectionProperties.AcquireLeadsAsSelf` | lease-test.py:78-80 | a won acquisition makes this process the holder with duration 10 and a renew time stamped in one of the rounds. The store holds exactly the returned lease |
| `ElectionProperties.AcquireAbortsOnlyOnFatal` | lease-test.py:81-84 | the loop never ends on a 409 Conflict from a replace or a 404 from a read; it ends only on errors it may not swallow |
| `ElectionProperties.LiveLeaseBlocksAcquisition` | lease-test.py:71-76 | while the stored renew time is T and no one else writes, turns whose clock reads before T + 10 s never write, even when this process is the holder. The store is left unchanged |
| `ElectionProperties.ExpiredLeaseIsClaimed` | lease-test.py:71-80 | at or after T + 10 s, a quiet turn replaces the lease and wins |
| `ElectionProperties.FreshAcquisition` | lease-test.py:27-51 | against an absent record, one quiet turn creates it and claims it. The result: holder is this process, one transition, acquire time equal to renew time |
| `ElectionProperties.ConflictRetries` | lease-test.py:81-84 | a rival write between read and replace makes the replace conflict. The loop continues with the next turn, and the rival's lease stays stored |
| `ElectionProperties.CreateRaceAborts` | lease-test.py:28-31 | a create that loses the race raises 409 Conflict, which ends the acquisition loop |
| `ElectionProperties.HolderRenewalKeepsClaim` | lease-test.py:44 | a quiet renewal by the holder changes only the renew time and duration |
| `ElectionProperties.RenewalConflictRaised` | lease-test.py:97 | a rival write during a renewal makes it raise 409 Conflict. Nothing catches it, and the rival's lease stays stored |
| `ElectionProperties.FetchFailureAborts` | lease-test.py:69 | a fetch error ends the acquisition loop with the error the read or the create raised |
| `ElectionProperties.ReplaceFailureHandling` | lease-test.py:81-84 | when the replace of an expired lease fails, a 409 Conflict sends the loop to its next turn. Any other error ends the loop with that same error, and the replace writes nothing |
| `ElectionProperties.RenewalTakesOverLiveLease` | lease-test.py:36-51 | a renewal re-reads the lease and stamps it whoever holds it. When another process holds a live claim, the renewal still wins without a conflict, makes this process the holder and counts one more transition |

## Left out

- Sleeping (`sleep_until`, `time.sleep`) is not modelled. Waiting is the
  gap before the next fetch, and the model takes the next clock sample as
  given. It does not model that `time.sleep` rejects a negative length, which
  could happen if the deadline passes between the comparison and the sleep.
- The clock (`datetime.now(UTC)`) is an integer-millisecond input, and the
  model does not require later samples to be larger. Kubernetes'
  microsecond timestamps are rounded to milliseconds.
- The Kubernetes client, `config.load_config` and the global `api` handle
  are replaced by the `Store` object. Network, authorisation and server
  failures are injected per call as inputs.
- `Election.AcquireLease`: the script's `while True` runs forever. The model
  runs one turn per given round and ends with `StillTrying` when the rounds
  run out.
- The leadership loop (lines 93-97) is modelled for one turn only
  (`RenewOnce`), since the loop never ends. The status `print` lines and
  `os.getpid()` identity are glue; the identity is a parameter.
- Rival writes happen only right after one of this process's reads. A rival
  write between a successful create and the following replace is not
  modelled separately; its effect, a 409 on the replace, can be injected as
  that replace's failure.
- Mutual exclusion between processes is not proved. It needs more than the
  store's version check. The renewal re-reads the lease and takes it over
  from whoever holds it (`RenewalTakesOverLiveLease`). So exclusion also
  depends on each renewal landing before the holder's own claim expires,
  that is, within the 500 ms lead time, and the model makes no assumption
  about that timing.
