/**
 * The `blockchain_meta` bucket: two reserved keys holding 8-byte encoded
 * scalars, the transactional writer of the head sequence (`chainMeta`) and
 * the decoders that read the scalars back with their "absent" defaults.
 */
module ChainMeta {
  import opened Encoding
  import opened Wrappers

  /** Bucket keys are the ASCII bytes of these literals. */
  type Key = string
  type Bucket = map<Key, seq<byte>>

  const MetaBucketName: Key := "blockchain_meta"
  const HeadSeqKey: Key := "head_seq"
  const VerifiedSeqKey: Key := "verified_seq"

  /** Every reserved key that is present holds an 8-byte value. */
  predicate WellFormed(m: Bucket)
  {
    && (HeadSeqKey in m ==> |m[HeadSeqKey]| == 8)
    && (VerifiedSeqKey in m ==> |m[VerifiedSeqKey]| == 8)
  }

  /** The bucket after a `Put` and the error the `Put` returned. */
  datatype PutResult = PutResult(bucket: Bucket, err: Option<Error>)

  /**
   * `Bucket.Put(key, value)`: the store either reports `fault` and writes
   * nothing, or stores the value under the key.
   */
  function Put(m: Bucket, key: Key, value: seq<byte>, fault: Option<Error>): (r: PutResult)
    ensures r.err == fault
    ensures fault.Some? ==> r.bucket == m
    ensures fault.None? ==> key in r.bucket && r.bucket[key] == value
    ensures fault.None? ==> forall k :: k != key ==> (k in r.bucket <==> k in m)
    ensures fault.None? ==> forall k :: k != key && k in m ==> r.bucket[k] == m[k]
  {
    if fault.Some? then PutResult(m, fault) else PutResult(m[key := value], None)
  }

  /** `chainMeta.setHeadSeq`: writes `n` under `head_seq`. */
  function SetHeadSeq(m: Bucket, n: u64, fault: Option<Error>): (r: PutResult)
    requires WellFormed(m)
    ensures WellFormed(r.bucket)
    ensures r.err == fault
    ensures fault.Some? ==> r.bucket == m
    ensures fault.None? ==> HeadSeqKey in r.bucket && GetHeadSeq(r.bucket) == n
    ensures fault.None? ==> r.bucket == m[HeadSeqKey := Itob(n)]
  {
    BtoiItob(n);
    Put(m, HeadSeqKey, Itob(n), fault)
  }

  /**
   * `chainMeta.getHeadSeq`: decodes `head_seq`. The source decodes whatever
   * `Get` returns, so it may only be called when the key is present.
   */
  function GetHeadSeq(m: Bucket): (r: u64)
    requires WellFormed(m) && HeadSeqKey in m
    ensures Itob(r) == m[HeadSeqKey]
  {
    Btoi(m[HeadSeqKey])
  }

  /** `getHeadSeqFromDB`: the stored head sequence as `int64`, or -1 when absent. */
  function HeadSeqFromDb(m: Bucket): (r: i64)
    requires WellFormed(m)
    ensures HeadSeqKey !in m ==> r == -1
    ensures HeadSeqKey in m ==> r == ToInt64(GetHeadSeq(m))
  {
    if HeadSeqKey in m then ToInt64(Btoi(m[HeadSeqKey])) else -1
  }

  /** `getVerifiedSigSeqFromDB`: the stored verified sequence, or 0 when absent. */
  function VerifiedSigSeqFromDb(m: Bucket): (r: u64)
    requires WellFormed(m)
    ensures VerifiedSeqKey !in m ==> r == 0
    ensures VerifiedSeqKey in m ==> Itob(r) == m[VerifiedSeqKey]
  {
    if VerifiedSeqKey in m then Btoi(m[VerifiedSeqKey]) else 0
  }

  /** Writing the head sequence and reading it back yields `int64(n)`. */
  lemma HeadSeqRoundTrip(m: Bucket, n: u64)
    requires WellFormed(m)
    ensures WellFormed(m[HeadSeqKey := Itob(n)])
    ensures HeadSeqFromDb(m[HeadSeqKey := Itob(n)]) == ToInt64(n)
    ensures VerifiedSigSeqFromDb(m[HeadSeqKey := Itob(n)]) == VerifiedSigSeqFromDb(m)
  {
    BtoiItob(n);
  }

  /** Writing the verified sequence and reading it back yields `n`. */
  lemma VerifiedSigSeqRoundTrip(m: Bucket, n: u64)
    requires WellFormed(m)
    ensures WellFormed(m[VerifiedSeqKey := Itob(n)])
    ensures VerifiedSigSeqFromDb(m[VerifiedSeqKey := Itob(n)]) == n
    ensures HeadSeqFromDb(m[VerifiedSeqKey := Itob(n)]) == HeadSeqFromDb(m)
  {
    BtoiItob(n);
  }

  /**
   * An absent `head_seq` and a stored zero are told apart: the first reads
   * as -1, the second as 0.
   */
  lemma StoredZeroIsNotAbsent(m: Bucket)
    requires WellFormed(m) && HeadSeqKey !in m
    ensures HeadSeqFromDb(m) == -1
    ensures HeadSeqFromDb(m[HeadSeqKey := Itob(0)]) == 0
  {
    HeadSeqRoundTrip(m, 0);
  }

  /**
   * The largest unsigned sequence, once stored, reads back as the -1
   * sentinel, exactly as an empty bucket does.
   */
  lemma MaxSeqReadsAsAbsent(m: Bucket)
    requires WellFormed(m)
    ensures HeadSeqFromDb(m[HeadSeqKey := Itob(MAX_U64)]) == -1
  {
    HeadSeqRoundTrip(m, MAX_U64);
  }
}
