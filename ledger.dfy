/**
 * The ledger store `Blockchain`: the durable store, the cache of the two
 * scalars, block application through `dbUpdate`, the verified-signature
 * setter and the getters.
 */
module Ledger {
  import opened Encoding
  import opened Wrappers
  import opened ChainMeta
  import opened Transaction

  /** A block, as far as this core looks at it: its sequence number. */
  datatype Block = Block(seqNo: u64)

  /** Cache/store agreement: the cache equals what the durable store decodes to. */
  predicate InSync(c: Cache, db: Db)
  {
    && WellFormed(db.meta)
    && c.headSeq == HeadSeqFromDb(db.meta)
    && c.verifiedSigSeq == VerifiedSigSeqFromDb(db.meta)
  }

  /**
   * `updateHeadSeq(b)`: the head-sequence handler for block `b`. Invoked on
   * any cache and transaction, it sets the cached head to `int64(b.Seq())`,
   * hands back a rollback restoring the head it found, returns the store's
   * error, and writes nothing but `head_seq := b.Seq()` (nothing at all when
   * the write fails).
   */
  function UpdateHeadSeq(b: Block, putFault: Option<Error>): (h: Handler)
    ensures forall c: Cache, tx: Db :: WellFormed(tx.meta) ==>
      var r := ApplyHandler(h, c, tx);
      && r.cache == c.(headSeq := ToInt64(b.seqNo))
      && r.rollback == RestoreHead(c.headSeq)
      && r.err == putFault
      && r.tx == (if putFault.None? then tx.(meta := tx.meta[HeadSeqKey := Itob(b.seqNo)]) else tx)
  {
    HeadSeqUpdater(b.seqNo, putFault)
  }

  /** The handlers `ProcessBlock` runs, in order: head sequence, then unspent pool. */
  function ProcessBlockHandlers(b: Block, putFault: Option<Error>, unspent: UnspentOutcome): seq<Handler>
  {
    [UpdateHeadSeq(b, putFault), UnspentUpdater(unspent)]
  }

  // ---------------------------------------------------------------------
  // What `ProcessBlock` does, outcome by outcome

  /**
   * Both handlers succeed: no error, the cached head is `int64(b.Seq())`,
   * the durable `head_seq` holds `b.Seq()`, the unspent pool's writes are
   * committed, and the verified-signature sequence is untouched.
   */
  lemma ProcessBlockCommits(b: Block, c: Cache, db: Db, pool: Pool)
    requires WellFormed(db.meta)
    ensures
      var u := DbUpdateSpec(ProcessBlockHandlers(b, None, Applied(pool)), c, db);
      && u.err == None
      && u.cache == c.(headSeq := ToInt64(b.seqNo))
      && u.db == Db(db.meta[HeadSeqKey := Itob(b.seqNo)], pool)
      && HeadSeqKey in u.db.meta && GetHeadSeq(u.db.meta) == b.seqNo
      && HeadSeqFromDb(u.db.meta) == ToInt64(b.seqNo)
  {
    var ps := ProcessBlockHandlers(b, None, Applied(pool));
    var p0 := Running([], c, db);
    var p1 := Step(p0, ps[0]);
    assert p1 == Running([RestoreHead(c.headSeq)], c.(headSeq := ToInt64(b.seqNo)), db.(meta := db.meta[HeadSeqKey := Itob(b.seqNo)]));
    assert ps[1..][1..] == [];
    assert Steps(p0, ps) == Steps(p1, ps[1..]);
    assert Steps(p1, ps[1..]) == Steps(Step(p1, ps[1]), []);
    HeadSeqRoundTrip(db.meta, b.seqNo);
  }

  /**
   * The head update succeeds and the unspent pool rejects the block: its
   * error is returned and both the cache and the durable store (head
   * sequence included) are as before the call.
   */
  lemma ProcessBlockUnspentRejected(b: Block, c: Cache, db: Db, e: Error, partial: Pool)
    requires WellFormed(db.meta)
    ensures DbUpdateSpec(ProcessBlockHandlers(b, None, Rejected(e, partial)), c, db) == Update(Some(e), c, db)
  {
    var ps := ProcessBlockHandlers(b, None, Rejected(e, partial));
    assert ps[..1] == [ps[0]];
    assert [ps[0]][1..] == [];
    assert ps[..1][..0] == [];
    AbortRestoresCache(ps, 1, c, db);
  }

  /**
   * The head handler's own write fails: the error is returned, the unspent
   * pool is never run and the store is as before, but the cache keeps the
   * optimistic head `int64(b.Seq())`, since no rollback was registered for
   * the failing handler.
   */
  lemma ProcessBlockOwnWriteFails(b: Block, c: Cache, db: Db, fault: Error, unspent: UnspentOutcome)
    requires WellFormed(db.meta)
    ensures
      DbUpdateSpec(ProcessBlockHandlers(b, Some(fault), unspent), c, db)
        == Update(Some(fault), c.(headSeq := ToInt64(b.seqNo)), db)
  {
    var ps := ProcessBlockHandlers(b, Some(fault), unspent);
    assert ps[..0] == [];
    FirstFailureDecides(ps, 0, c, db);
  }

  /**
   * Cache/store agreement survives a `ProcessBlock` whose head write succeeds,
   * whatever the unspent pool does.
   */
  lemma ProcessBlockKeepsSync(b: Block, c: Cache, db: Db, unspent: UnspentOutcome)
    requires InSync(c, db)
    ensures
      var u := DbUpdateSpec(ProcessBlockHandlers(b, None, unspent), c, db);
      InSync(u.cache, u.db)
  {
    match unspent
    case Applied(pool) =>
      ProcessBlockCommits(b, c, db, pool);
      HeadSeqRoundTrip(db.meta, b.seqNo);
    case Rejected(e, partial) =>
      ProcessBlockUnspentRejected(b, c, db, e, partial);
  }

  /**
   * Cache/store agreement is broken when the head write itself fails for a block
   * whose converted sequence differs from the cached head: the cache then
   * reports a head the store never recorded.
   */
  lemma OwnWriteFailureBreaksSync(b: Block, c: Cache, db: Db, fault: Error, unspent: UnspentOutcome)
    requires InSync(c, db)
    requires ToInt64(b.seqNo) != c.headSeq
    ensures
      var u := DbUpdateSpec(ProcessBlockHandlers(b, Some(fault), unspent), c, db);
      u.err == Some(fault) && u.db == db && !InSync(u.cache, u.db)
  {
    ProcessBlockOwnWriteFails(b, c, db, fault, unspent);
  }

  // ---------------------------------------------------------------------
  // The store object

  class Blockchain {
    /** The durable store: the `blockchain_meta` bucket and the unspent pool. */
    var db: Db
    /** The cached head sequence and verified-signature sequence. */
    var cache: Cache

    ghost predicate Valid()
      reads this
    {
      WellFormed(db.meta)
    }

    /** Cache/store agreement: the cache equals what the store decodes to. */
    ghost predicate Synced()
      reads this
    {
      InSync(cache, db)
    }

    /** The struct literal of `NewBlockchain`, with the head cache set to -1. */
    constructor (db: Db)
      requires WellFormed(db.meta)
      ensures this.db == db && cache == Cache(-1, 0)
      ensures Valid()
    {
      this.db := db;
      cache := Cache(-1, 0);
    }

    /** `syncCache`: reloads both cached scalars from the store. */
    method SyncCache()
      requires Valid()
      modifies this`cache
      ensures cache == Cache(HeadSeqFromDb(db.meta), VerifiedSigSeqFromDb(db.meta))
      ensures Synced()
    {
      cache := cache.(headSeq := HeadSeqFromDb(db.meta));
      cache := cache.(verifiedSigSeq := VerifiedSigSeqFromDb(db.meta));
    }

    /** `HeadSeq`: the cached head sequence, which is the stored one while in sync. */
    method HeadSeq() returns (r: i64)
      ensures r == cache.headSeq
      ensures Synced() ==> r == HeadSeqFromDb(db.meta)
    {
      r := cache.headSeq;
    }

    /** `VerifiedSigSeq`: the cached verified sequence, which is the stored one while in sync. */
    method VerifiedSigSeq() returns (r: u64)
      ensures r == cache.verifiedSigSeq
      ensures Synced() ==> r == VerifiedSigSeqFromDb(db.meta)
    {
      r := cache.verifiedSigSeq;
    }

    /**
     * `SetVerifiedSigSeq`: the durable write comes first, in its own
     * transaction; only when it succeeds does the cache change.
     */
    method SetVerifiedSigSeq(n: u64, fault: Option<Error>) returns (err: Option<Error>)
      requires Valid()
      modifies this
      ensures Valid()
      ensures err == fault
      ensures fault.Some? ==> db == old(db) && cache == old(cache)
      ensures fault.None? ==> db == old(db).(meta := old(db.meta)[VerifiedSeqKey := Itob(n)])
      ensures fault.None? ==> cache == old(cache).(verifiedSigSeq := n)
      ensures fault.None? ==> VerifiedSigSeqFromDb(db.meta) == n
      ensures cache.headSeq == old(cache.headSeq)
      ensures HeadSeqFromDb(db.meta) == HeadSeqFromDb(old(db.meta))
      ensures old(Synced()) ==> Synced()
    {
      var put := Put(db.meta, VerifiedSeqKey, Itob(n), fault);
      VerifiedSigSeqRoundTrip(db.meta, n);
      if put.err.Some? {
        return put.err;
      }
      db := db.(meta := put.bucket);
      cache := cache.(verifiedSigSeq := n);
      err := None;
    }

    /** Invokes one handler on the open transaction `tx`. */
    method RunHandler(h: Handler, tx: Db) returns (rb: Rollback, err: Option<Error>, tx': Db)
      requires WellFormed(tx.meta)
      modifies this`cache
      ensures HandlerResult(rb, err, cache, tx') == ApplyHandler(h, old(cache), tx)
    {
      match h
      case HeadSeqUpdater(n, fault) =>
        var prev := cache.headSeq;
        cache := cache.(headSeq := ToInt64(n));
        rb := RestoreHead(prev);
        var put := SetHeadSeq(tx.meta, n, fault);
        err, tx' := put.err, tx.(meta := put.bucket);
      case UnspentUpdater(Applied(pool)) =>
        rb, err, tx' := NoOp, None, tx.(unspent := pool);
      case UnspentUpdater(Rejected(e, partial)) =>
        rb, err, tx' := NoOp, Some(e), tx.(unspent := partial);
    }

    /** Invokes one rollback closure. */
    method Undo(r: Rollback)
      modifies this`cache
      ensures cache == ApplyRollback(r, old(cache))
    {
      match r
      case RestoreHead(prev) =>
        cache := cache.(headSeq := prev);
      case NoOp =>
    }

    /**
     * `dbUpdate`: runs the handlers in order over one write transaction; on
     * the first error runs the rollbacks collected so far, front to back,
     * and drops the transaction; otherwise commits it.
     */
    method DbUpdate(ps: seq<Handler>) returns (err: Option<Error>)
      requires Valid()
      modifies this
      ensures Valid()
      ensures Update(err, cache, db) == DbUpdateSpec(ps, old(cache), old(db))
    {
      ghost var p0 := Running([], cache, db);
      var tx := db;
      var rollbacks: seq<Rollback> := [];
      var i := 0;
      while i < |ps|
        invariant 0 <= i <= |ps|
        invariant db == old(db) && WellFormed(tx.meta)
        invariant Steps(p0, ps[..i]) == Running(rollbacks, cache, tx)
      {
        var rb, e, tx' := RunHandler(ps[i], tx);
        if e.Some? {
          ghost var failed := cache;
          var j := 0;
          while j < |rollbacks|
            invariant 0 <= j <= |rollbacks|
            invariant db == old(db)
            invariant RunRollbacks(rollbacks[j..], cache) == RunRollbacks(rollbacks, failed)
          {
            assert rollbacks[j..][1..] == rollbacks[j + 1..];
            Undo(rollbacks[j]);
            j := j + 1;
          }
          FirstFailureDecides(ps, i, p0.cache, p0.tx);
          err := e;
          return;
        }
        assert ps[..i + 1] == ps[..i] + [ps[i]];
        StepsAppend(p0, ps[..i], [ps[i]]);
        assert [ps[i]][1..] == [];
        rollbacks, tx := rollbacks + [rb], tx';
        i := i + 1;
      }
      assert ps[..i] == ps;
      db := tx;
      err := None;
    }

    /**
     * `ProcessBlock`: applies block `b` through `dbUpdate` with the head
     * handler first and the unspent pool second. `putFault` is what the
     * store answers to the head write; `unspent` is what the pool does.
     */
    method ProcessBlock(b: Block, putFault: Option<Error>, unspent: UnspentOutcome) returns (err: Option<Error>)
      requires Valid()
      modifies this
      ensures Valid()
      ensures Update(err, cache, db) == DbUpdateSpec(ProcessBlockHandlers(b, putFault, unspent), old(cache), old(db))
      ensures cache.verifiedSigSeq == old(cache.verifiedSigSeq)
      ensures putFault.None? && unspent.Applied? ==>
        && err.None? && cache.headSeq == ToInt64(b.seqNo)
        && HeadSeqKey in db.meta && GetHeadSeq(db.meta) == b.seqNo
        && db == Db(old(db.meta)[HeadSeqKey := Itob(b.seqNo)], unspent.pool)
      ensures putFault.None? && unspent.Rejected? ==>
        err == Some(unspent.err) && cache == old(cache) && db == old(db)
      ensures putFault.Some? ==>
        err == putFault && cache == old(cache).(headSeq := ToInt64(b.seqNo)) && db == old(db)
      ensures putFault.None? && old(Synced()) ==> Synced()
    {
      ghost var c0, db0 := cache, db;
      err := DbUpdate(ProcessBlockHandlers(b, putFault, unspent));
      match putFault
      case Some(fault) =>
        ProcessBlockOwnWriteFails(b, c0, db0, fault, unspent);
      case None =>
        match unspent
        case Applied(pool) =>
          ProcessBlockCommits(b, c0, db0, pool);
        case Rejected(e, partial) =>
          ProcessBlockUnspentRejected(b, c0, db0, e, partial);
        if InSync(c0, db0) {
          ProcessBlockKeepsSync(b, c0, db0, unspent);
        }
    }
  }

  /**
   * `NewBlockchain`: opens the unspent pool and the meta bucket (either may
   * fail, and the first failure is returned with no instance), then builds
   * the store with the head cache at -1 and loads the cache from the store.
   */
  method NewBlockchain(store: Db, unspentFault: Option<Error>, metaFault: Option<Error>)
    returns (r: Result<Blockchain, Error>)
    requires WellFormed(store.meta)
    ensures unspentFault.Some? ==> r == Err(unspentFault.value)
    ensures unspentFault.None? && metaFault.Some? ==> r == Err(metaFault.value)
    ensures unspentFault.None? && metaFault.None? ==>
      && r.Ok? && fresh(r.value) && r.value.Valid() && r.value.Synced()
      && r.value.db == store
      && r.value.cache == Cache(HeadSeqFromDb(store.meta), VerifiedSigSeqFromDb(store.meta))
      && (HeadSeqKey !in store.meta ==> r.value.cache.headSeq == -1)
      && (VerifiedSeqKey !in store.meta ==> r.value.cache.verifiedSigSeq == 0)
  {
    if unspentFault.Some? {
      return Err(unspentFault.value);
    }
    if metaFault.Some? {
      return Err(metaFault.value);
    }
    var bc := new Blockchain(store);
    bc.SyncCache();
    r := Ok(bc);
  }

  /**
   * A client run: an empty store reports -1 and 0; block 5 is applied;
   * block 6 is rejected by the unspent pool and the head stays at 5; the
   * verified sequence is set to 42 and a failing write of 43 leaves it there.
   */
  method ClientRun(e: Error)
  {
    var r := NewBlockchain(Db(map[], map[]), None, None);
    var bc := r.value;
    var h := bc.HeadSeq();
    var v := bc.VerifiedSigSeq();
    assert h == -1 && v == 0;

    var err := bc.ProcessBlock(Block(5), None, Applied(map[]));
    h := bc.HeadSeq();
    assert err == None && h == 5;

    err := bc.ProcessBlock(Block(6), None, Rejected(e, map[]));
    h := bc.HeadSeq();
    assert err == Some(e) && h == 5 && HeadSeqFromDb(bc.db.meta) == 5;

    err := bc.SetVerifiedSigSeq(42, None);
    v := bc.VerifiedSigSeq();
    assert err == None && v == 42;
    err := bc.SetVerifiedSigSeq(43, Some(e));
    v := bc.VerifiedSigSeq();
    assert err == Some(e) && v == 42;
  }
}
