/**
 * The value-level meaning of `dbUpdate`: an ordered list of transaction
 * handlers run over one write transaction, each returning a rollback and an
 * error; the first error stops the run, runs the rollbacks collected so far
 * in the order they were collected, and discards the transaction.
 */
module Transaction {
  import opened Encoding
  import opened Wrappers
  import opened ChainMeta

  /** The two cached scalars of `Blockchain.cache`. */
  datatype Cache = Cache(headSeq: i64, verifiedSigSeq: u64)

  /** The durable contents of the unspent pool's buckets; opaque here. */
  type Pool = map<seq<byte>, seq<byte>>

  /**
   * The durable store as this core sees it: the `blockchain_meta` bucket and
   * the unspent pool. A write transaction works on a copy of it.
   */
  datatype Db = Db(meta: Bucket, unspent: Pool)

  /** What the unspent pool's handler does with a block. */
  datatype UnspentOutcome =
    | Applied(pool: Pool)                    // its writes, to be committed
    | Rejected(err: Error, partial: Pool)    // its error, and whatever it had written

  /** The transaction handlers `ProcessBlock` hands to `dbUpdate`. */
  datatype Handler =
    | HeadSeqUpdater(n: u64, putFault: Option<Error>)   // `updateHeadSeq(b)`
    | UnspentUpdater(outcome: UnspentOutcome)           // `Unspent.processBlock(b)`

  /** The rollback closures, as inspectable values. */
  datatype Rollback = RestoreHead(prev: i64) | NoOp

  /** A handler's rollback, its error, and the cache and transaction after it. */
  datatype HandlerResult = HandlerResult(rollback: Rollback, err: Option<Error>, cache: Cache, tx: Db)

  /** One handler invoked on the transaction. */
  function ApplyHandler(h: Handler, c: Cache, tx: Db): (r: HandlerResult)
    requires WellFormed(tx.meta)
    ensures WellFormed(r.tx.meta)
    ensures r.cache.verifiedSigSeq == c.verifiedSigSeq
    ensures h.HeadSeqUpdater? ==>
      && r.cache == c.(headSeq := ToInt64(h.n))
      && r.rollback == RestoreHead(c.headSeq)
      && r.err == h.putFault
      && r.tx == (if h.putFault.None? then tx.(meta := tx.meta[HeadSeqKey := Itob(h.n)]) else tx)
      && (h.putFault.None? ==> HeadSeqFromDb(r.tx.meta) == ToInt64(h.n))
    ensures h.UnspentUpdater? ==> r.cache == c && r.rollback == NoOp && r.tx.meta == tx.meta
    ensures h.UnspentUpdater? && h.outcome.Applied? ==> r.err.None? && r.tx == tx.(unspent := h.outcome.pool)
    ensures h.UnspentUpdater? && h.outcome.Rejected? ==> r.err == Some(h.outcome.err)
  {
    match h
    case HeadSeqUpdater(n, fault) =>
      // the cache is set before the write, whatever the write returns
      var put := SetHeadSeq(tx.meta, n, fault);
      HeadSeqRoundTrip(tx.meta, n);
      HandlerResult(RestoreHead(c.headSeq), put.err, c.(headSeq := ToInt64(n)), tx.(meta := put.bucket))
    case UnspentUpdater(Applied(pool)) =>
      HandlerResult(NoOp, None, c, tx.(unspent := pool))
    case UnspentUpdater(Rejected(e, partial)) =>
      HandlerResult(NoOp, Some(e), c, tx.(unspent := partial))
  }

  /** Invoking one rollback. */
  function ApplyRollback(r: Rollback, c: Cache): (c': Cache)
    ensures c'.verifiedSigSeq == c.verifiedSigSeq
    ensures r.NoOp? ==> c' == c
    ensures r.RestoreHead? ==> c'.headSeq == r.prev
  {
    match r
    case RestoreHead(prev) => c.(headSeq := prev)
    case NoOp => c
  }

  /**
   * Invoking the rollbacks front to back, in the order they were collected:
   * the verified sequence is never touched, no-ops leave the cache alone, and
   * a head restoration collected last decides the head.
   */
  function RunRollbacks(rbs: seq<Rollback>, c: Cache): (r: Cache)
    ensures r.verifiedSigSeq == c.verifiedSigSeq
    ensures (forall j :: 0 <= j < |rbs| ==> rbs[j].NoOp?) ==> r == c
    ensures rbs != [] && rbs[|rbs| - 1].RestoreHead? ==> r.headSeq == rbs[|rbs| - 1].prev
  {
    if rbs == [] then c else RunRollbacks(rbs[1..], ApplyRollback(rbs[0], c))
  }

  /** Where the handler loop of `dbUpdate` stands. */
  datatype Progress =
    | Running(rollbacks: seq<Rollback>, cache: Cache, tx: Db)
    | Failed(err: Error, cache: Cache)

  /**
   * One iteration of the handler loop: nothing runs once the loop has
   * failed; a success appends one rollback to those already collected.
   */
  function Step(p: Progress, h: Handler): (q: Progress)
    requires p.Running? ==> WellFormed(p.tx.meta)
    ensures p.Failed? ==> q == p
    ensures q.cache.verifiedSigSeq == p.cache.verifiedSigSeq
    ensures q.Running? ==>
      && p.Running? && WellFormed(q.tx.meta)
      && |q.rollbacks| == |p.rollbacks| + 1 && q.rollbacks[..|p.rollbacks|] == p.rollbacks
    ensures p.Running? && q.Failed? ==> Some(q.err) == ApplyHandler(h, p.cache, p.tx).err
  {
    match p
    case Failed(_, _) => p
    case Running(rbs, c, tx) =>
      var r := ApplyHandler(h, c, tx);
      if r.err.Some? then Failed(r.err.value, RunRollbacks(rbs, r.cache))
      else Running(rbs + [r.rollback], r.cache, r.tx)
  }

  /** The handler loop over a list of handlers. */
  function Steps(p: Progress, ps: seq<Handler>): (q: Progress)
    requires p.Running? ==> WellFormed(p.tx.meta)
    ensures q.Running? ==> WellFormed(q.tx.meta)
    ensures q.cache.verifiedSigSeq == p.cache.verifiedSigSeq
    decreases |ps|
  {
    if ps == [] then p else Steps(Step(p, ps[0]), ps[1..])
  }

  /** The error `dbUpdate` returns, and the cache and store it leaves behind. */
  datatype Update = Update(err: Option<Error>, cache: Cache, db: Db)

  /**
   * `dbUpdate(ps...)`: when every handler succeeds, the transaction is
   * committed; otherwise the store is left as it was.
   */
  function DbUpdateSpec(ps: seq<Handler>, c: Cache, db: Db): (u: Update)
    requires WellFormed(db.meta)
    ensures WellFormed(u.db.meta)
    ensures u.err.Some? ==> u.db == db
    ensures u.cache.verifiedSigSeq == c.verifiedSigSeq
  {
    match Steps(Running([], c, db), ps)
    case Running(_, c', tx) => Update(None, c', tx)
    case Failed(e, c') => Update(Some(e), c', db)
  }

  // ---------------------------------------------------------------------
  // The handler loop

  /** Once a handler has failed, no later handler runs. */
  lemma {:induction false} FailedAbsorbs(e: Error, c: Cache, ps: seq<Handler>)
    ensures Steps(Failed(e, c), ps) == Failed(e, c)
    decreases |ps|
  {
    if ps != [] {
      FailedAbsorbs(e, c, ps[1..]);
    }
  }

  /** Running two lists of handlers one after the other is running their concatenation. */
  lemma {:induction false} StepsAppend(p: Progress, ps: seq<Handler>, qs: seq<Handler>)
    requires p.Running? ==> WellFormed(p.tx.meta)
    ensures Steps(p, ps + qs) == Steps(Steps(p, ps), qs)
    decreases |ps|
  {
    if ps == [] {
      assert ps + qs == qs;
    } else {
      assert (ps + qs)[1..] == ps[1..] + qs;
      StepsAppend(Step(p, ps[0]), ps[1..], qs);
    }
  }

  /**
   * The outcome of the loop is decided at the first failing handler `ps[k]`:
   * the handlers after it are never run, the error is its error, and the
   * cache is what the rollbacks of the `k` earlier handlers make of the cache
   * that `ps[k]` left.
   */
  lemma FirstFailureDecides(ps: seq<Handler>, k: nat, c: Cache, db: Db)
    requires WellFormed(db.meta)
    requires k < |ps|
    requires Steps(Running([], c, db), ps[..k]).Running?
    requires ApplyHandler(ps[k], Steps(Running([], c, db), ps[..k]).cache, Steps(Running([], c, db), ps[..k]).tx).err.Some?
    ensures
      var before := Steps(Running([], c, db), ps[..k]);
      var r := ApplyHandler(ps[k], before.cache, before.tx);
      && |before.rollbacks| == k
      && DbUpdateSpec(ps, c, db) == Update(r.err, RunRollbacks(before.rollbacks, r.cache), db)
  {
    var p0 := Running([], c, db);
    var before := Steps(p0, ps[..k]);
    RollbackPerHandler([], c, db, ps[..k]);
    var failed := Step(before, ps[k]);
    assert failed.Failed?;
    assert ps == ps[..k] + ([ps[k]] + ps[k + 1..]);
    StepsAppend(p0, ps[..k], [ps[k]] + ps[k + 1..]);
    StepsAppend(before, [ps[k]], ps[k + 1..]);
    assert Steps(before, [ps[k]]) == failed by {
      assert [ps[k]][1..] == [];
    }
    FailedAbsorbs(failed.err, failed.cache, ps[k + 1..]);
  }

  /**
   * When every handler succeeds, each one appends exactly its own rollback,
   * the one it returned for the cache and transaction it found, after those
   * already collected.
   */
  lemma {:induction false} RollbackPerHandler(rbs: seq<Rollback>, c: Cache, tx: Db, ps: seq<Handler>)
    requires WellFormed(tx.meta)
    requires Steps(Running(rbs, c, tx), ps).Running?
    ensures forall j :: 0 <= j <= |ps| ==> Steps(Running(rbs, c, tx), ps[..j]).Running?
    ensures
      var q := Steps(Running(rbs, c, tx), ps);
      && |q.rollbacks| == |rbs| + |ps| && q.rollbacks[..|rbs|] == rbs
      && forall j :: 0 <= j < |ps| ==>
           var s := Steps(Running(rbs, c, tx), ps[..j]);
           q.rollbacks[|rbs| + j] == ApplyHandler(ps[j], s.cache, s.tx).rollback
    decreases |ps|
  {
    var p0 := Running(rbs, c, tx);
    if ps == [] {
      assert ps[..0] == [];
    } else {
      var p1 := Step(p0, ps[0]);
      if p1.Failed? {
        FailedAbsorbs(p1.err, p1.cache, ps[1..]);
      } else {
        RollbackPerHandler(p1.rollbacks, p1.cache, p1.tx, ps[1..]);
        var q := Steps(p1, ps[1..]);
        assert q.rollbacks[..|rbs|] == q.rollbacks[..|rbs| + 1][..|rbs|];
        forall j | 0 <= j <= |ps|
          ensures Steps(p0, ps[..j]) == if j == 0 then p0 else Steps(p1, ps[1..][..j - 1])
        {
          if j == 0 {
            assert ps[..j] == [];
          } else {
            assert ps[..j][0] == ps[0];
            assert ps[..j][1..] == ps[1..][..j - 1];
          }
        }
        forall j | 0 <= j < |ps|
          ensures
            var s := Steps(p0, ps[..j]);
            s.Running? && q.rollbacks[|rbs| + j] == ApplyHandler(ps[j], s.cache, s.tx).rollback
        {
          if j == 0 {
            assert q.rollbacks[|rbs|] == q.rollbacks[..|rbs| + 1][|rbs|];
          } else {
            assert ps[1..][j - 1] == ps[j];
          }
        }
      }
    }
  }

  // ---------------------------------------------------------------------
  // Rollbacks

  /** A rollback collected later runs later: rollbacks run in application order. */
  lemma {:induction false} RunRollbacksSnoc(rbs: seq<Rollback>, r: Rollback, c: Cache)
    ensures RunRollbacks(rbs + [r], c) == ApplyRollback(r, RunRollbacks(rbs, c))
    decreases |rbs|
  {
    if rbs == [] {
      assert [] + [r] == [r];
      assert [r][1..] == [];
    } else {
      assert (rbs + [r])[1..] == rbs[1..] + [r];
      RunRollbacksSnoc(rbs[1..], r, ApplyRollback(rbs[0], c));
    }
  }

  /**
   * The undo contract of a handler that succeeds: its rollback, run on the
   * cache it left, gives back exactly the cache it found.
   */
  lemma RollbackUndoesHandler(h: Handler, c: Cache, tx: Db)
    requires WellFormed(tx.meta)
    requires ApplyHandler(h, c, tx).err.None?
    ensures
      var r := ApplyHandler(h, c, tx);
      ApplyRollback(r.rollback, r.cache) == c
  {
  }

  /**
   * Running rollbacks front to back is not the same as undoing in reverse:
   * with two head updates registered, the forward order ends on the value
   * read by the second update, not on the value before the first.
   */
  lemma ForwardOrderIsNotReverse(c: Cache, a: i64, b: i64)
    ensures RunRollbacks([RestoreHead(a), RestoreHead(b)], c).headSeq == b
    ensures RunRollbacks([RestoreHead(b), RestoreHead(a)], c).headSeq == a
  {
    RunRollbacksSnoc([RestoreHead(a)], RestoreHead(b), c);
    RunRollbacksSnoc([RestoreHead(b)], RestoreHead(a), c);
    assert [RestoreHead(a)] + [RestoreHead(b)] == [RestoreHead(a), RestoreHead(b)];
    assert [RestoreHead(b)] + [RestoreHead(a)] == [RestoreHead(b), RestoreHead(a)];
  }

  // ---------------------------------------------------------------------
  // When the forward order is harmless

  /** The number of head-sequence updaters in a handler list. */
  function HeadUpdaters(ps: seq<Handler>): (n: nat)
  {
    if ps == [] then 0
    else HeadUpdaters(ps[..|ps| - 1]) + (if ps[|ps| - 1].HeadSeqUpdater? then 1 else 0)
  }

  /**
   * Rollbacks that are all no-ops or restorations of one value `h` leave the
   * cache alone, or set its head to `h`, whatever their order.
   */
  lemma {:induction false} RunUniformRollbacks(rbs: seq<Rollback>, h: i64, x: Cache)
    requires forall j :: 0 <= j < |rbs| ==> rbs[j] == NoOp || rbs[j] == RestoreHead(h)
    ensures RunRollbacks(rbs, x) == if RestoreHead(h) in rbs then x.(headSeq := h) else x
    decreases |rbs|
  {
    if rbs != [] {
      assert forall j :: 0 <= j < |rbs[1..]| ==> rbs[1..][j] == rbs[j + 1];
      RunUniformRollbacks(rbs[1..], h, ApplyRollback(rbs[0], x));
      assert RestoreHead(h) in rbs <==> rbs[0] == RestoreHead(h) || RestoreHead(h) in rbs[1..] by {
        assert rbs == [rbs[0]] + rbs[1..];
      }
    }
  }

  /**
   * After successful handlers of which at most one updates the head, the
   * collected rollbacks are no-ops and, if there was a head update, one
   * restoration of the head found at the start; nothing else has changed
   * in the cache but its head.
   */
  lemma {:induction false} OneHeadUpdaterPrefix(qs: seq<Handler>, c: Cache, db: Db)
    requires WellFormed(db.meta)
    requires Steps(Running([], c, db), qs).Running?
    requires HeadUpdaters(qs) <= 1
    ensures
      var q := Steps(Running([], c, db), qs);
      && q.cache.verifiedSigSeq == c.verifiedSigSeq
      && (forall j :: 0 <= j < |q.rollbacks| ==> q.rollbacks[j] == NoOp || q.rollbacks[j] == RestoreHead(c.headSeq))
      && (HeadUpdaters(qs) == 0 ==> q.cache == c && RestoreHead(c.headSeq) !in q.rollbacks)
      && (HeadUpdaters(qs) == 1 ==> RestoreHead(c.headSeq) in q.rollbacks)
    decreases |qs|
  {
    var p0 := Running([], c, db);
    if qs != [] {
      var init := qs[..|qs| - 1];
      var last := qs[|qs| - 1];
      assert qs == init + [last];
      StepsAppend(p0, init, [last]);
      var before := Steps(p0, init);
      if before.Failed? {
        FailedAbsorbs(before.err, before.cache, [last]);
      } else {
        OneHeadUpdaterPrefix(init, c, db);
        assert [last][1..] == [];
        var r := ApplyHandler(last, before.cache, before.tx);
        assert Steps(p0, qs) == Running(before.rollbacks + [r.rollback], r.cache, r.tx);
      }
    }
  }

  /**
   * Forward-order rollback is enough for atomicity of the cache when at
   * most one head-sequence updater ran before a failing unspent-pool
   * handler: the update returns that handler's error and leaves both the
   * cache and the store exactly as they were.
   */
  lemma AbortRestoresCache(ps: seq<Handler>, k: nat, c: Cache, db: Db)
    requires WellFormed(db.meta)
    requires k < |ps| && ps[k].UnspentUpdater? && ps[k].outcome.Rejected?
    requires Steps(Running([], c, db), ps[..k]).Running?
    requires HeadUpdaters(ps[..k]) <= 1
    ensures DbUpdateSpec(ps, c, db) == Update(Some(ps[k].outcome.err), c, db)
  {
    var before := Steps(Running([], c, db), ps[..k]);
    FirstFailureDecides(ps, k, c, db);
    OneHeadUpdaterPrefix(ps[..k], c, db);
    RunUniformRollbacks(before.rollbacks, c.headSeq, before.cache);
  }
}
