# Ledger store block application, modelled in Dafny

This project models the block-application bookkeeping of the ledger store
(`Blockchain` in `src/visor/blockdb/blockchain.go`). The store keeps two
scalars in the `blockchain_meta` bucket of a transactional key-value store:

- `head_seq` is the sequence number of the last applied block.
- `verified_seq` is the last block whose signatures were verified.

Both are stored as 8-byte big-endian integers. The store also mirrors them in
an in-memory cache: `headSeq` is an `int64` with -1 for "no block yet", and
`verifiedSigSeq` is a `uint64` that defaults to 0.

`ProcessBlock` applies a block through `dbUpdate`. That runs an ordered list of
transaction handlers inside one write transaction:

1. The head-sequence updater. It sets the cache optimistically, writes
   `head_seq`, and returns a rollback that restores the previous cached head.
2. The unspent pool's handler.

On the first error, `dbUpdate` runs the rollbacks collected so far, front to
back, and the transaction is discarded. Otherwise the transaction is committed.

Files and modules:

- `encoding.dfy` (`Encoding`): fixed-width integer types. Also the 8-byte
  big-endian encoding used by `bucket.Itob`/`bucket.Btoi`, with its round trips
  proved, and Go's `int64(u)` conversion written out as a two's-complement wrap.
- `wrappers.dfy` (`Wrappers`): `Option`, `Result` and the error value.
- `chain_meta.dfy` (`ChainMeta`): the bucket as a map from key to bytes, the
  reserved keys, `Put`, `chainMeta.setHeadSeq`/`getHeadSeq`, and the decoders
  `getHeadSeqFromDB`/`getVerifiedSigSeqFromDB` with their defaults.
- `transaction.dfy` (`Transaction`): the meaning of `dbUpdate` on values.
  Handlers and rollbacks are datatypes. The handler loop is a fold (`Step`,
  `Steps`), and the commit-or-discard result is `DbUpdateSpec`. It also holds
  the lemmas about stopping at the first error, rollback order and atomicity.
- `ledger.dfy` (`Ledger`): the class `Blockchain` with its durable store `db`
  and its `cache`, plus `NewBlockchain`. The class methods are proved against
  the `Transaction` functions. The `ProcessBlock` outcome lemmas are here too.

Behaviour of the code, modelled as written:

- **Own-write failure keeps the optimistic head.** The head updater sets the
  cache before it writes (line 130). Its rollback is registered only when its
  handler succeeds (line 114). So if the `head_seq` write itself fails, the
  write is discarded but `HeadSeq()` keeps `int64(b.Seq())`.
  `OwnWriteFailureBreaksSync` shows that the cache then disagrees with the
  store.
- **Rollbacks run front to back (lines 109-111).** `ForwardOrderIsNotReverse`
  shows this differs from reverse-order undo once two head updates are
  registered. `AbortRestoresCache` shows the order is harmless when at most
  one head updater precedes the failing handler, which is the case in
  `ProcessBlock`.
- **An absent `verified_seq` and a stored 0 both read as 0.** An absent
  `head_seq` reads as -1 and a stored 0 reads as 0 (`StoredZeroIsNotAbsent`).
- **A stored head of 2^64-1 reads as -1,** the same as "no block yet"
  (`MaxSeqReadsAsAbsent`).
- **No rollbacks run when commit fails.** `bolt.DB.Update` commits after the
  closure returns nil, and the shown code runs no rollbacks on commit
  failure. Commit is modelled as always succeeding.

Environment choices are parameters:

- `putFault` is what the store answers to the `head_seq` write.
- `fault` is what it answers to the `verified_seq` write.
- `unspent` is the unspent pool's outcome for the block: `Applied(pool)` or
  `Rejected(err, partial)`.
- `unspentFault` and `metaFault` are the failures of opening the pool and the
  meta bucket.

## Model

| member | source | states |
|---|---|---|
| `Encoding.Itob` | src/visor/blockdb/blockchain.go:23 | the value written for a sequence is always 8 bytes |
| `Encoding.BtoiItob` | src/visor/blockdb/blockchain.go:22-28 | decoding the bytes `setHeadSeq` writes gives back the sequence written |
| `Encoding.Btoi` | src/visor/blockdb/blockchain.go:27 | every 8-byte stored value is the encoding of the value it decodes to |
| `Encoding.ItobInjective` | src/visor/blockdb/blockchain.go:23 | two sequences have the same stored bytes exactly when they are equal |
| `Encoding.ToInt64` | src/visor/blockdb/blockchain.go:130 | `int64(u)` is `u` below 2^63 and `u - 2^64` (negative) from 2^63 on |
| `Encoding.ToInt64Injective` | src/visor/blockdb/blockchain.go:77 | the conversion maps distinct sequences to distinct cached heads |
| `Encoding.ToInt64MinusOne` | src/visor/blockdb/blockchain.go:75-80 | only 2^64-1 converts to the -1 sentinel |
| `ChainMeta.Put` | src/visor/blockdb/blockchain.go:158 | a failing put returns its error and writes nothing; a successful one sets the key and leaves every other key as it was |
| `ChainMeta.SetHeadSeq` | src/visor/blockdb/blockchain.go:22-24 | returns the put's error; on success `head_seq` decodes to the sequence and nothing else changes; on failure the bucket is unchanged |
| `ChainMeta.GetHeadSeq` | src/visor/blockdb/blockchain.go:26-28 | the decoded head is the value whose encoding is stored under `head_seq` |
| `ChainMeta.HeadSeqFromDb` | src/visor/blockdb/blockchain.go:75-80 | -1 when `head_seq` is absent, otherwise `int64` of the stored value |
| `ChainMeta.VerifiedSigSeqFromDb` | src/visor/blockdb/blockchain.go:82-87 | 0 when `verified_seq` is absent, otherwise the value whose encoding is stored |
| `ChainMeta.HeadSeqRoundTrip` | src/visor/blockdb/blockchain.go:75-80 | after storing `n` under `head_seq`, the head reads back as `int64(n)` and the verified sequence reads as before |
| `ChainMeta.VerifiedSigSeqRoundTrip` | src/visor/blockdb/blockchain.go:82-87 | after storing `n` under `verified_seq`, it reads back as `n` and the head reads as before |
| `ChainMeta.StoredZeroIsNotAbsent` | src/visor/blockdb/blockchain.go:75-80 | an absent head reads as -1 while a stored 0 reads as 0 |
| `ChainMeta.MaxSeqReadsAsAbsent` | src/visor/blockdb/blockchain.go:75-80 | a stored head of 2^64-1 reads as the -1 sentinel |
| `Transaction.ApplyHandler` | src/visor/blockdb/blockchain.go:121-140 | the head updater sets the cached head to `int64(n)` whether or not its write succeeds, returns the restore of the head it read and the write's error; on success the transaction differs only by `head_seq := n`, which reads back as `int64(n)`; on failure it is unchanged. The pool's handler leaves the cache and the meta bucket alone: when applied it installs its pool and returns no error, when rejected it returns its error. No handler changes the verified sequence |
| `Transaction.RunRollbacks` | src/visor/blockdb/blockchain.go:109-111 | running the collected rollbacks never changes the verified sequence; only no-ops leave the cache as it is; a head restoration collected last decides the head |
| `Transaction.Step` | src/visor/blockdb/blockchain.go:105-115 | after a failure no handler runs; a success appends one rollback after those collected; a failure carries the handler's own error; the verified sequence is never changed |
| `Transaction.Steps` | src/visor/blockdb/blockchain.go:105-115 | running a handler list keeps the transaction's meta bucket well formed and never changes the verified sequence |
| `Transaction.DbUpdateSpec` | src/visor/blockdb/blockchain.go:102-119 | an update that returns an error leaves the durable store as it was; the store stays well formed; the verified sequence is never changed |
| `Transaction.ApplyRollback` | src/visor/blockdb/blockchain.go:133-137 | the head rollback sets the cached head to the value read before the update and touches nothing else; the no-op rollback changes nothing |
| `Transaction.FailedAbsorbs` | src/visor/blockdb/blockchain.go:105-112 | once a handler has failed, no later handler runs |
| `Transaction.StepsAppend` | src/visor/blockdb/blockchain.go:105-115 | the handlers run in list order: running `ps ++ qs` is running `ps`, then `qs` |
| `Transaction.RollbackPerHandler` | src/visor/blockdb/blockchain.go:105-115 | when all handlers succeed, every prefix of the run succeeds and the `j`-th handler appends, at position `j` after those already collected, exactly the rollback it returned for the cache and transaction it found |
| `Transaction.FirstFailureDecides` | src/visor/blockdb/blockchain.go:102-118 | at the first failing handler `k`: its error is returned, the `k` earlier rollbacks run on the cache it left, later handlers are never run, and the store is unchanged |
| `Transaction.RunRollbacksSnoc` | src/visor/blockdb/blockchain.go:109-111 | rollbacks run in application order: the one collected last is applied last |
| `Transaction.RollbackUndoesHandler` | src/visor/blockdb/blockchain.go:125-137 | a succeeding handler's rollback, applied to the cache it left, gives back exactly the cache it found |
| `Transaction.ForwardOrderIsNotReverse` | src/visor/blockdb/blockchain.go:109-111 | with two head rollbacks, front-to-back ends on the second's value and the reverse order on the first's |
| `Transaction.RunUniformRollbacks` | src/visor/blockdb/blockchain.go:109-111 | no-ops and restorations of one value, in any order, leave the cache alone or restore that head |
| `Transaction.OneHeadUpdaterPrefix` | src/visor/blockdb/blockchain.go:105-115 | after successful handlers with at most one head updater, the collected rollbacks restore the starting head and only the head has changed |
| `Transaction.AbortRestoresCache` | src/visor/blockdb/blockchain.go:102-118 | when an unspent-pool handler fails after at most one head updater, the error is returned and both the cache and the store are as before the call |
| `Ledger.UpdateHeadSeq` | src/visor/blockdb/blockchain.go:121-140 | for every cache and transaction, invoking the handler for block `b` sets the cached head to `int64(b.Seq())`, returns the restore of the head it found and the store's error, and writes only `head_seq := b.Seq()` (nothing when the write fails) |
| `Ledger.ProcessBlockCommits` | src/visor/blockdb/blockchain.go:121-139 | both handlers succeed: no error; the cached head is `int64(b.Seq())`; `head_seq` holds `b.Seq()`; the pool's writes are committed; the verified sequence is untouched |
| `Ledger.ProcessBlockUnspentRejected` | src/visor/blockdb/blockchain.go:105-113 | the head update succeeds and the pool fails: the pool's error is returned and the cache and store are exactly as before |
| `Ledger.ProcessBlockOwnWriteFails` | src/visor/blockdb/blockchain.go:128-138 | the `head_seq` write fails: its error is returned, the pool is never run, the store is unchanged, and the cached head stays `int64(b.Seq())` |
| `Ledger.ProcessBlockKeepsSync` | src/visor/blockdb/blockchain.go:90-98 | cache/store agreement survives every `ProcessBlock` whose head write succeeds |
| `Ledger.OwnWriteFailureBreaksSync` | src/visor/blockdb/blockchain.go:128-138 | a failing head write for a block whose head differs from the cached one leaves the cache disagreeing with the store |
| `Ledger.Blockchain.constructor` | src/visor/blockdb/blockchain.go:55-60 | the new store holds the given durable state with the cache at -1/0 |
| `Ledger.Blockchain.SyncCache` | src/visor/blockdb/blockchain.go:67-73 | the cache becomes the decoded stored values (defaults when absent), so cache and store agree |
| `Ledger.Blockchain.HeadSeq` | src/visor/blockdb/blockchain.go:143-147 | returns the cached head, which equals the decoded stored head while cache and store agree |
| `Ledger.Blockchain.VerifiedSigSeq` | src/visor/blockdb/blockchain.go:150-154 | returns the cached verified sequence, which equals the decoded stored one while cache and store agree |
| `Ledger.Blockchain.SetVerifiedSigSeq` | src/visor/blockdb/blockchain.go:157-166 | on a put error: returns it, changes nothing. On success: stored value and cache both equal `n`. Neither path touches the head; cache/store agreement is kept |
| `Ledger.Blockchain.RunHandler` | src/visor/blockdb/blockchain.go:121-140 | invoking a handler changes only the cache, exactly as `ApplyHandler` says |
| `Ledger.Blockchain.Undo` | src/visor/blockdb/blockchain.go:133-137 | invoking a rollback changes the cache exactly as `ApplyRollback` says |
| `Ledger.Blockchain.DbUpdate` | src/visor/blockdb/blockchain.go:102-119 | the returned error, the new cache and the new store are those `DbUpdateSpec` gives for the old cache and store |
| `Ledger.Blockchain.ProcessBlock` | src/visor/blockdb/blockchain.go:90-98 | three outcomes (commit, pool rejection, own-write failure), as the three lemmas above; the verified sequence is never changed; agreement is kept unless the head write fails |
| `Ledger.NewBlockchain` | src/visor/blockdb/blockchain.go:44-65 | a failure to open the pool or the meta bucket is returned with no instance. Otherwise a fresh store is returned whose cache is the decoded stored values: -1/0 for absent keys |

## Left out

- Bolt internals: B-tree pages, commit I/O and commit-time failure. Commit is taken to succeed once the handler loop returns nil; the code runs no rollbacks on commit failure anyway.
- The unspent pool (`NewUnspentPool`, `UnspentPool.processBlock`): not part of this model. Its handler's outcome (`Applied`/`Rejected`, with its writes) and the failure to open it are parameters. Its rollback is a no-op on the modelled cache, and its own in-memory state is not modelled.
- `bucket.New`: not part of this model. Bucket creation is a parameter: failure, or an existing or empty bucket.
- `bucket.Itob`, `bucket.Btoi`: their source is not part of this model. The model gives its own 8-byte big-endian definitions (`Encoding.Itob`, `Encoding.Btoi`) and proves both round trips and injectivity about them.
- GetHeadSeq: requires `head_seq` to be present and 8 bytes long. The source decodes whatever `Get` returns. For a missing key that is nil, on which `Btoi` does not return a value.
- Values of other lengths under the reserved keys: every method requires the bucket to hold 8-byte values there (`WellFormed`). This code only writes such values.
- Locking with `sync.Mutex`: each method is one atomic step. Concurrent readers and the unsynchronised read in `VerifiedSigSeq` (lines 151-153) are not modelled.
- `coin.Block`: reduced to its sequence number.
- `include/cipher.bitcoin.go.h`: a bare C struct declaration with no behaviour.
