/** What the persister writes: the batches `chunks_timeout` cuts from the stream
    of summarized files, and the puts one write transaction makes into the
    two tables for a batch. */
module Persistence {
  import opened SummaryTypes

  /** The count trigger of `chunks_timeout`. */
  const MaxBatchSize := 4096

  /** The length of the batch that starts at stream index `offset`, given
      that `len` items are already buffered. The batch closes when it holds
      `MaxBatchSize` items, when the stream ends, or when the flush timer
      fires right after the item at `offset + len - 1` (`timerFires`).
      */
  function BatchLength(remaining: nat, timerFires: nat -> bool, offset: nat, len: nat): (n: nat)
    requires 1 <= len <= remaining && len <= MaxBatchSize
    ensures len <= n <= remaining && n <= MaxBatchSize
    ensures n < remaining && n < MaxBatchSize ==> timerFires(offset + n - 1)
    decreases remaining - len
  {
    if len == remaining || len == MaxBatchSize || timerFires(offset + len - 1) then len
    else BatchLength(remaining, timerFires, offset, len + 1)
  }

  /** The batches the persister receives for `items`, the first of which
      starts at stream index `offset`. */
  function Batches<T>(items: seq<T>, timerFires: nat -> bool, offset: nat): (batches: seq<seq<T>>)
    ensures Flatten(batches) == items
    ensures forall b | b in batches :: 0 < |b| <= MaxBatchSize
    decreases |items|
  {
    if items == [] then []
    else
      var n := BatchLength(|items|, timerFires, offset, 1);
      var rest := Batches(items[n..], timerFires, offset + n);
      assert items[..n] + items[n..] == items;
      [items[..n]] + rest
  }

  /** Without an early flush, every batch but the last is full. */
  lemma {:induction false} FullBatchesWithoutTimer<T>(items: seq<T>, timerFires: nat -> bool, offset: nat)
    requires forall i :: !timerFires(i)
    ensures forall j | 0 <= j < |Batches(items, timerFires, offset)| - 1 ::
              |Batches(items, timerFires, offset)[j]| == MaxBatchSize
    decreases |items|
  {
    if items != [] {
      var n := BatchLength(|items|, timerFires, offset, 1);
      FullBatchesWithoutTimer(items[n..], timerFires, offset + n);
      var rest := Batches(items[n..], timerFires, offset + n);
      var batches := Batches(items, timerFires, offset);
      assert batches == [items[..n]] + rest;
      forall j | 0 <= j < |batches| - 1 ensures |batches[j]| == MaxBatchSize {
        if j == 0 {
          assert n < |items| && !timerFires(offset + n - 1);
        } else {
          assert batches[j] == rest[j - 1];
        }
      }
    }
  }

  /** The table after a transaction puts `writes` into it, one after another. */
  function PutAll<K, V>(table: map<K, V>, writes: seq<(K, V)>): map<K, V>
    decreases |writes|
  {
    if writes == [] then table
    else
      var (k, v) := writes[|writes| - 1];
      PutAll(table, writes[..|writes| - 1])[k := v]
  }

  /** Putting `a` and then `b` is putting `a + b`. */
  lemma {:induction false} PutAllConcat<K, V>(table: map<K, V>, a: seq<(K, V)>, b: seq<(K, V)>)
    ensures PutAll(PutAll(table, a), b) == PutAll(table, a + b)
    decreases |b|
  {
    if b == [] {
      assert a + b == a;
    } else {
      PutAllConcat(table, a, b[..|b| - 1]);
      assert (a + b)[..|a + b| - 1] == a + b[..|b| - 1];
    }
  }

  /** The keys after the puts are the old keys and the written ones. */
  lemma {:induction false} PutAllKeys<K, V>(table: map<K, V>, writes: seq<(K, V)>)
    ensures PutAll(table, writes).Keys == table.Keys + set w | w in writes :: w.0
    decreases |writes|
  {
    if writes != [] {
      var init := writes[..|writes| - 1];
      PutAllKeys(table, init);
      assert writes == init + [writes[|writes| - 1]];
    }
  }

  /** The last put of a key decides its value. */
  lemma {:induction false} PutAllLastWriteWins<K, V>(table: map<K, V>, writes: seq<(K, V)>, j: nat)
    requires j < |writes|
    requires forall i | j < i < |writes| :: writes[i].0 != writes[j].0
    ensures writes[j].0 in PutAll(table, writes)
    ensures PutAll(table, writes)[writes[j].0] == writes[j].1
    decreases |writes|
  {
    if j < |writes| - 1 {
      PutAllLastWriteWins(table, writes[..|writes| - 1], j);
    }
  }

  /** A key no put names keeps its old value, or stays absent. */
  lemma {:induction false} PutAllUntouched<K, V>(table: map<K, V>, writes: seq<(K, V)>, key: K)
    requires forall i | 0 <= i < |writes| :: writes[i].0 != key
    ensures key in PutAll(table, writes) <==> key in table
    ensures key in table ==> PutAll(table, writes)[key] == table[key]
    decreases |writes|
  {
    if writes != [] {
      PutAllUntouched(table, writes[..|writes| - 1], key);
    }
  }

  /** The `file_digests` puts of a batch: path -> (mtime, digest), written
      under the file's display path. */
  function DigestPuts(batch: seq<SummarizedFile>): (puts: seq<(string, FileDigest)>)
    ensures |puts| == |batch|
    decreases |batch|
  {
    if batch == [] then []
    else
      var f := batch[|batch| - 1];
      DigestPuts(batch[..|batch| - 1]) + [(f.path, FileDigest(f.mtime, f.digest))]
  }

  /** The `summaries` puts of a batch: digest -> summary. */
  function SummaryPuts(batch: seq<SummarizedFile>): (puts: seq<(Digest, string)>)
    ensures |puts| == |batch|
    decreases |batch|
  {
    if batch == [] then []
    else
      var f := batch[|batch| - 1];
      SummaryPuts(batch[..|batch| - 1]) + [(f.digest, f.summary)]
  }

  /** The `i`-th digest put is the record of the `i`-th file, under its display path. */
  lemma {:induction false} DigestPutsAt(batch: seq<SummarizedFile>, i: nat)
    requires i < |batch|
    ensures DigestPuts(batch)[i] == (batch[i].path, FileDigest(batch[i].mtime, batch[i].digest))
    decreases |batch|
  {
    if i < |batch| - 1 {
      DigestPutsAt(batch[..|batch| - 1], i);
    }
  }

  /** The `i`-th summary put maps the `i`-th file's digest to its summary. */
  lemma {:induction false} SummaryPutsAt(batch: seq<SummarizedFile>, i: nat)
    requires i < |batch|
    ensures SummaryPuts(batch)[i] == (batch[i].digest, batch[i].summary)
    decreases |batch|
  {
    if i < |batch| - 1 {
      SummaryPutsAt(batch[..|batch| - 1], i);
    }
  }

  /** Putting the digest records of one more file of a batch is one more map update. */
  lemma DigestPutsStep(table: map<string, FileDigest>, batch: seq<SummarizedFile>, i: nat)
    requires i < |batch|
    ensures PutAll(table, DigestPuts(batch[..i + 1]))
            == PutAll(table, DigestPuts(batch[..i]))[batch[i].path := FileDigest(batch[i].mtime, batch[i].digest)]
  {
    assert batch[..i + 1][..i] == batch[..i];
  }

  /** Putting the summary of one more file of a batch is one more map update. */
  lemma SummaryPutsStep(table: map<Digest, string>, batch: seq<SummarizedFile>, i: nat)
    requires i < |batch|
    ensures PutAll(table, SummaryPuts(batch[..i + 1]))
            == PutAll(table, SummaryPuts(batch[..i]))[batch[i].digest := batch[i].summary]
  {
    assert batch[..i + 1][..i] == batch[..i];
  }

  lemma {:induction false} DigestPutsConcat(a: seq<SummarizedFile>, b: seq<SummarizedFile>)
    ensures DigestPuts(a + b) == DigestPuts(a) + DigestPuts(b)
    decreases |b|
  {
    if b == [] {
      assert a + b == a;
    } else {
      DigestPutsConcat(a, b[..|b| - 1]);
      assert (a + b)[..|a + b| - 1] == a + b[..|b| - 1];
    }
  }

  lemma {:induction false} SummaryPutsConcat(a: seq<SummarizedFile>, b: seq<SummarizedFile>)
    ensures SummaryPuts(a + b) == SummaryPuts(a) + SummaryPuts(b)
    decreases |b|
  {
    if b == [] {
      assert a + b == a;
    } else {
      SummaryPutsConcat(a, b[..|b| - 1]);
      assert (a + b)[..|a + b| - 1] == a + b[..|b| - 1];
    }
  }

  /** Every file record names a digest that has a summary. */
  ghost predicate Consistent(fileDigests: map<string, FileDigest>, summaries: map<Digest, string>)
  {
    forall k | k in fileDigests :: fileDigests[k].digest in summaries
  }

  /** No stored summary is empty. */
  ghost predicate SummariesNonEmpty(summaries: map<Digest, string>)
  {
    forall d | d in summaries :: summaries[d] != ""
  }

  /** Writing a file's digest record and its summary together keeps every
      digest record backed by a summary. */
  lemma {:induction false} BatchKeepsConsistent(fileDigests: map<string, FileDigest>, summaries: map<Digest, string>,
                                                batch: seq<SummarizedFile>)
    requires Consistent(fileDigests, summaries)
    ensures Consistent(PutAll(fileDigests, DigestPuts(batch)), PutAll(summaries, SummaryPuts(batch)))
    decreases |batch|
  {
    if batch != [] {
      var init := batch[..|batch| - 1];
      var f := batch[|batch| - 1];
      BatchKeepsConsistent(fileDigests, summaries, init);
      assert DigestPuts(batch)[..|batch| - 1] == DigestPuts(init);
      assert SummaryPuts(batch)[..|batch| - 1] == SummaryPuts(init);
    }
  }

  /** A batch of non-empty summaries keeps every stored summary non-empty. */
  lemma {:induction false} BatchKeepsNonEmpty(summaries: map<Digest, string>, batch: seq<SummarizedFile>)
    requires SummariesNonEmpty(summaries)
    requires forall i | 0 <= i < |batch| :: batch[i].summary != ""
    ensures SummariesNonEmpty(PutAll(summaries, SummaryPuts(batch)))
    decreases |batch|
  {
    if batch != [] {
      var init := batch[..|batch| - 1];
      BatchKeepsNonEmpty(summaries, init);
      assert SummaryPuts(batch)[..|batch| - 1] == SummaryPuts(init);
    }
  }

  /** What goes wrong in one persister transaction. `PutFails(i)` makes the
      put of the `i`-th file of the batch fail (either of its two puts). */
  datatype WriteFault = NoFault | OpenFails | PutFails(index: nat) | CommitFails

  /** Whether the transaction for `batch` ends without committing. */
  predicate Aborts(fault: WriteFault, batch: seq<SummarizedFile>)
  {
    match fault
    case NoFault => false
    case OpenFails => true
    case PutFails(i) => i < |batch|
    case CommitFails => true
  }

  function AbortError(fault: WriteFault): PipelineError
  {
    match fault
    case OpenFails => WriteTxnFailed
    case PutFails(_) => PutFailed
    case _ => CommitFailed
  }
}
