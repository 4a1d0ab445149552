/** The summary index: two tables (`file_digests`, path key -> mtime and
    digest; `summaries`, digest -> summary), a shared backlog, and the stages of
    an indexing run, each consuming what the previous one sent. */
module SummaryIndexing {
  import opened SummaryTypes
  import opened Backlog
  import opened Scanning
  import opened Digesting
  import opened CacheCheck
  import opened Summarizing
  import opened Persistence

  /** Everything outside the index that one run consults.
      - `scanTxnOk`: whether the scanner's read transaction opens;
      - `digestReadFails`: which `file_digests` lookups fail, by key;
      - `load`: the file loader, for a worktree-relative path;
      - `hash`: BLAKE3 followed by hex encoding;
      - `cacheTxnOk`: whether the read transaction for the i-th cache check opens;
      - `summaryReadFails`: which `summaries` lookups fail, by digest;
      - `models`, `complete`: the model registry and the completion provider;
      - `timerFires`: where the persister's two-second window closes a batch early;
      - `writeFaults`: what goes wrong in the write transaction of the i-th batch. */
  datatype Environment = Environment(
    scanTxnOk: bool,
    digestReadFails: string -> bool,
    load: Path -> Option<string>,
    hash: string -> Digest,
    cacheTxnOk: nat -> bool,
    summaryReadFails: Digest -> bool,
    models: seq<LanguageModel>,
    complete: (Request, LanguageModel) -> Option<string>,
    timerFires: nat -> bool,
    writeFaults: nat -> WriteFault)

  /** Where a persisted file came from: it was handed to the digester as one
      of `pairs`, its contents loaded and hash to its digest, that digest was a
      cache miss against `summaries`, and the summarization model answered its
      contents with its (non-empty) summary. */
  ghost predicate Provenance(s: SummarizedFile, pairs: seq<PathMtime>, env: Environment, summaries: map<Digest, string>)
  {
    && (s.path, s.mtime) in pairs
    && env.load(s.path).Some?
    && s.digest == env.hash(env.load(s.path).value)
    && s.digest !in summaries && !env.summaryReadFails(s.digest)
    && SummaryModel(env.models).Some?
    && env.complete(SummaryRequest(env.load(s.path).value), SummaryModel(env.models).value) == Some(s.summary)
    && s.summary != ""
  }

  /** The index of the first batch, from `from` on, whose write transaction
      does not commit, or `|batches|` when they all commit. */
  function FirstAbort(batches: seq<seq<SummarizedFile>>, faults: nat -> WriteFault, from: nat): (k: nat)
    requires from <= |batches|
    ensures from <= k <= |batches|
    ensures forall j | from <= j < k :: !Aborts(faults(j), batches[j])
    ensures k < |batches| ==> Aborts(faults(k), batches[k])
    decreases |batches| - from
  {
    if from == |batches| || Aborts(faults(from), batches[from]) then from
    else FirstAbort(batches, faults, from + 1)
  }

  /** No batch from `from` on aborts exactly when the search reaches the end. */
  lemma FirstAbortReachesEnd(batches: seq<seq<SummarizedFile>>, faults: nat -> WriteFault, from: nat)
    requires from <= |batches|
    ensures FirstAbort(batches, faults, from) == |batches|
            <==> forall j | from <= j < |batches| :: !Aborts(faults(j), batches[j])
  {
    var k := FirstAbort(batches, faults, from);
    if k < |batches| {
      assert Aborts(faults(k), batches[k]);
    }
  }

  /** What the stages after the scanner commit, and the error the run ends with. */
  datatype RunOutcome = RunOutcome(committed: seq<SummarizedFile>, error: Option<PipelineError>)

  /** What the summarizer forwards for the cache misses: nothing when the model is missing. */
  function SummarizedOf(misses: seq<UnsummarizedFile>, env: Environment): seq<SummarizedFile>
  {
    match SummaryModel(env.models)
    case None => []
    case Some(model) => Summarized(misses, model, env.complete)
  }

  /** The stages after the scanner, each over what the previous one sent,
      against the summary table `summaries`: the digester, the cache check up
      to its first failed read transaction, the summarizer, and the persister
      up to its first failed write transaction. The error is that of the
      earliest failing stage. */
  function PipelineRun(backlogged: seq<seq<PathMtime>>, env: Environment, summaries: map<Digest, string>): RunOutcome
  {
    var digested := Digested(Flatten(backlogged), env.load, env.hash);
    var k := FirstFailure(env.cacheTxnOk, 0, |digested|);
    var misses := CacheMisses(digested[..k], summaries, env.summaryReadFails);
    var batches := Batches(SummarizedOf(misses, env), env.timerFires, 0);
    var j := FirstAbort(batches, env.writeFaults, 0);
    RunOutcome(Flatten(batches[..j]),
               if k < |digested| then Some(ReadTxnFailed)
               else if SummaryModel(env.models).None? && misses != [] then Some(ModelNotFound)
               else if j < |batches| then Some(AbortError(env.writeFaults(j)))
               else None)
  }

  class SummaryIndex {
    /** `file_digests`: key -> the mtime and digest last persisted under it. */
    var fileDigests: map<string, FileDigest>
    /** `summaries`: digest -> the summary of contents with that digest. */
    var summaries: map<Digest, string>
    /** The backlog shared by both scanners. */
    const backlog: SummaryBacklog

    constructor (fileDigests: map<string, FileDigest>, summaries: map<Digest, string>,
                 needsDrainPolicy: map<Path, BacklogValue> -> bool)
      ensures this.fileDigests == fileDigests && this.summaries == summaries
      ensures fresh(backlog) && backlog.files == map[] && backlog.needsDrainPolicy == needsDrainPolicy
    {
      this.fileDigests := fileDigests;
      this.summaries := summaries;
      backlog := new SummaryBacklog(needsDrainPolicy);
    }

    /** `add_to_backlog`: looks `entry` up under its key, inserts it when its
        mtime changed, and drains the backlog when the backlog asks for it;
        the batch returned is empty unless a drain happened. */
    method AddToBacklog(entry: Entry, readFails: string -> bool) returns (drained: seq<PathMtime>)
      modifies backlog
      ensures BacklogStep(old(backlog.files), entry, Selected(entry, fileDigests, readFails),
                          backlog.needsDrainPolicy, drained, backlog.files)
    {
      var key := DbKeyForPath(entry.path);
      if readFails(key) {
        return [];
      }
      var saved := Lookup(fileDigests, key);
      if entry.mtime != SavedMtime(saved) {
        backlog.Insert(entry.path, entry.size, entry.mtime);
        if backlog.NeedsDrain() {
          drained := backlog.Drain();
          return;
        }
      }
      drained := [];
    }

    /** `scan_entries`: the full scan. `files` stands for the snapshot's
        non-ignored file entries (`worktree.files(false, 0)`), so no entry is
        filtered here. */
    method ScanEntries(files: seq<Entry>, txnOk: bool, readFails: string -> bool)
      returns (r: StageResult<seq<PathMtime>>)
      modifies backlog
      ensures !txnOk ==> r == StageResult([], Some(ReadTxnFailed)) && backlog.files == old(backlog.files)
      ensures txnOk ==> r.error == None
      ensures txnOk ==> var scan := Scan(old(backlog.files), files, fileDigests, readFails, backlog.needsDrainPolicy);
                        SentMatches(r.sent, scan.drains) && backlog.files == scan.pending
      ensures txnOk ==> Accounted(old(backlog.files), SelectedPairs(files, fileDigests, readFails), r.sent, backlog.files)
    {
      if !txnOk {
        return StageResult([], Some(ReadTxnFailed));
      }
      var sent := [];
      for i := 0 to |files|
        invariant backlog.files == Scan(old(backlog.files), files[..i], fileDigests, readFails, backlog.needsDrainPolicy).pending
        invariant SentMatches(sent, Scan(old(backlog.files), files[..i], fileDigests, readFails, backlog.needsDrainPolicy).drains)
      {
        ghost var o := Scan(old(backlog.files), files[..i], fileDigests, readFails, backlog.needsDrainPolicy);
        var drained := AddToBacklog(files[i], readFails);
        SentMatchesStep(o, files[i], Selected(files[i], fileDigests, readFails), backlog.needsDrainPolicy,
                        sent, drained, backlog.files);
        assert files[..i + 1][..i] == files[..i];
        if drained != [] {
          sent := sent + [drained];
        }
      }
      assert files[..|files|] == files;
      ScanAccounted(old(backlog.files), files, fileDigests, readFails, backlog.needsDrainPolicy, sent);
      r := StageResult(sent, None);
    }

    /** `scan_updated_entries`: the delta scan. Only live changes of entries
        that the snapshot holds as files reach `add_to_backlog`; a removal
        does nothing. */
    method ScanUpdatedEntries(updates: seq<PathUpdate>, snapshot: map<EntryId, Entry>, txnOk: bool,
                              readFails: string -> bool)
      returns (r: StageResult<seq<PathMtime>>)
      modifies backlog
      ensures !txnOk ==> r == StageResult([], Some(ReadTxnFailed)) && backlog.files == old(backlog.files)
      ensures txnOk ==> r.error == None
      ensures txnOk ==> var scan := Scan(old(backlog.files), LiveFiles(updates, snapshot), fileDigests, readFails,
                                         backlog.needsDrainPolicy);
                        SentMatches(r.sent, scan.drains) && backlog.files == scan.pending
      ensures txnOk ==> Accounted(old(backlog.files), SelectedPairs(LiveFiles(updates, snapshot), fileDigests, readFails),
                                  r.sent, backlog.files)
    {
      if !txnOk {
        return StageResult([], Some(ReadTxnFailed));
      }
      var sent := [];
      for i := 0 to |updates|
        invariant backlog.files == Scan(old(backlog.files), LiveFiles(updates[..i], snapshot), fileDigests, readFails,
                                        backlog.needsDrainPolicy).pending
        invariant SentMatches(sent, Scan(old(backlog.files), LiveFiles(updates[..i], snapshot), fileDigests, readFails,
                                         backlog.needsDrainPolicy).drains)
      {
        ghost var live := LiveFiles(updates[..i], snapshot);
        ghost var o := Scan(old(backlog.files), live, fileDigests, readFails, backlog.needsDrainPolicy);
        LiveFilesNext(updates, snapshot, i);
        var drained := ScanUpdate(updates[i], snapshot, readFails);
        if LiveFile(updates[i], snapshot).Some? {
          var entry := LiveFile(updates[i], snapshot).value;
          SentMatchesStep(o, entry, Selected(entry, fileDigests, readFails), backlog.needsDrainPolicy,
                          sent, drained, backlog.files);
          ScanAppend(old(backlog.files), live, entry, fileDigests, readFails, backlog.needsDrainPolicy);
        } else {
          assert live + [] == live;
        }
        if drained != [] {
          sent := sent + [drained];
        }
      }
      assert updates[..|updates|] == updates;
      ScanAccounted(old(backlog.files), LiveFiles(updates, snapshot), fileDigests, readFails,
                    backlog.needsDrainPolicy, sent);
      r := StageResult(sent, None);
    }

    /** The body of the delta scan's loop for one update: a live change of
        an entry that the snapshot holds as a file goes through
        `add_to_backlog`; anything else does nothing. */
    method ScanUpdate(u: PathUpdate, snapshot: map<EntryId, Entry>, readFails: string -> bool)
      returns (drained: seq<PathMtime>)
      modifies backlog
      ensures LiveFile(u, snapshot).None? ==> drained == [] && backlog.files == old(backlog.files)
      ensures LiveFile(u, snapshot).Some? ==>
                var entry := LiveFile(u, snapshot).value;
                BacklogStep(old(backlog.files), entry, Selected(entry, fileDigests, readFails),
                            backlog.needsDrainPolicy, drained, backlog.files)
    {
      drained := [];
      match u.change {
        case Loaded | Added | Updated | AddedOrUpdated =>
          if u.entryId in snapshot && snapshot[u.entryId].isFile {
            drained := AddToBacklog(snapshot[u.entryId], readFails);
          }
        case Removed =>
          // Deleting the records of removed files is not implemented.
      }
    }

    /** `check_summary_cache`: forwards the files whose digest has no summary.
        A read transaction is opened per file; when one fails to open, the
        stage ends with an error after forwarding what came before. */
    method CheckSummaryCache(files: seq<UnsummarizedFile>, txnOk: nat -> bool, readFails: Digest -> bool)
      returns (r: StageResult<UnsummarizedFile>)
      ensures var k := FirstFailure(txnOk, 0, |files|);
              && r.sent == CacheMisses(files[..k], summaries, readFails)
              && r.error == (if k < |files| then Some(ReadTxnFailed) else None)
    {
      var sent := [];
      for i := 0 to |files|
        invariant forall j | 0 <= j < i :: txnOk(j)
        invariant sent == CacheMisses(files[..i], summaries, readFails)
      {
        if !txnOk(i) {
          return StageResult(sent, Some(ReadTxnFailed));
        }
        var f := files[i];
        assert files[..i + 1][..i] == files[..i];
        if !readFails(f.digest) && f.digest !in summaries {
          sent := sent + [f];
        }
      }
      r := StageResult(sent, None);
    }

    /** One write transaction of `persist_summaries`: both puts for every file
        of the batch, then the commit. If anything fails, neither table changes. */
    method WriteBatch(batch: seq<SummarizedFile>, fault: WriteFault) returns (error: Option<PipelineError>)
      modifies this
      ensures Aborts(fault, batch) ==> error == Some(AbortError(fault))
      ensures Aborts(fault, batch) ==> fileDigests == old(fileDigests) && summaries == old(summaries)
      ensures !Aborts(fault, batch) ==> error == None
      ensures !Aborts(fault, batch) ==> fileDigests == PutAll(old(fileDigests), DigestPuts(batch))
      ensures !Aborts(fault, batch) ==> summaries == PutAll(old(summaries), SummaryPuts(batch))
    {
      if fault == OpenFails {
        return Some(WriteTxnFailed);
      }
      var txnDigests := fileDigests;
      var txnSummaries := summaries;
      for i := 0 to |batch|
        invariant txnDigests == PutAll(fileDigests, DigestPuts(batch[..i]))
        invariant txnSummaries == PutAll(summaries, SummaryPuts(batch[..i]))
        invariant fault.PutFails? ==> fault.index >= i
        invariant fileDigests == old(fileDigests) && summaries == old(summaries)
      {
        if fault == PutFails(i) {
          return Some(PutFailed);
        }
        var f := batch[i];
        DigestPutsStep(fileDigests, batch, i);
        SummaryPutsStep(summaries, batch, i);
        txnDigests := txnDigests[f.path := FileDigest(f.mtime, f.digest)];
        txnSummaries := txnSummaries[f.digest := f.summary];
      }
      if fault == CommitFails {
        return Some(CommitFailed);
      }
      assert batch[..|batch|] == batch;
      fileDigests, summaries := txnDigests, txnSummaries;
      error := None;
    }

    /** `persist_summaries`: cuts the stream into batches and commits them
        one by one; the first batch that does not commit ends the stage with
        its error. */
    method PersistSummaries(stream: seq<SummarizedFile>, timerFires: nat -> bool, faults: nat -> WriteFault)
      returns (error: Option<PipelineError>, ghost committed: seq<SummarizedFile>)
      modifies this
      ensures var batches := Batches(stream, timerFires, 0);
              var k := FirstAbort(batches, faults, 0);
              && committed == Flatten(batches[..k])
              && error == (if k < |batches| then Some(AbortError(faults(k))) else None)
      ensures committed <= stream
      ensures error == None ==> committed == stream
      ensures fileDigests == PutAll(old(fileDigests), DigestPuts(committed))
      ensures summaries == PutAll(old(summaries), SummaryPuts(committed))
    {
      var batches := Batches(stream, timerFires, 0);
      error, committed := CommitBatches(batches, faults);
      ghost var k := FirstAbort(batches, faults, 0);
      FlattenPrefix(batches, k);
    }

    /** The loop of `persist_summaries` over the batches: each batch in its
        own write transaction, until one does not commit. */
    method CommitBatches(batches: seq<seq<SummarizedFile>>, faults: nat -> WriteFault)
      returns (error: Option<PipelineError>, ghost committed: seq<SummarizedFile>)
      modifies this
      ensures var k := FirstAbort(batches, faults, 0);
              && committed == Flatten(batches[..k])
              && error == (if k < |batches| then Some(AbortError(faults(k))) else None)
      ensures fileDigests == PutAll(old(fileDigests), DigestPuts(committed))
      ensures summaries == PutAll(old(summaries), SummaryPuts(committed))
    {
      error := None;
      var k := 0;
      ghost var stop := FirstAbort(batches, faults, 0);
      while k < |batches|
        invariant 0 <= k <= stop
        invariant fileDigests == DigestsAfter(old(fileDigests), batches[..k])
        invariant summaries == SummariesAfter(old(summaries), batches[..k])
        invariant error == None
      {
        error := WriteBatch(batches[k], faults(k));
        if error.Some? {
          assert Aborts(faults(k), batches[k]);
          break;
        }
        DigestsAfterNext(old(fileDigests), batches, k);
        SummariesAfterNext(old(summaries), batches, k);
        k := k + 1;
      }
      assert k == stop;
      committed := Flatten(batches[..k]);
      DigestsAfterIsPutAll(old(fileDigests), batches[..k]);
      SummariesAfterIsPutAll(old(summaries), batches[..k]);
    }

    /** The stages after the scanner, run one after another over what the
        previous stage sent; the run is `PipelineRun`. */
    method RunPipeline(backlogged: seq<seq<PathMtime>>, env: Environment)
      returns (error: Option<PipelineError>, ghost committed: seq<SummarizedFile>)
      modifies this
      ensures committed == PipelineRun(backlogged, env, old(summaries)).committed
      ensures error == PipelineRun(backlogged, env, old(summaries)).error
      ensures fileDigests == PutAll(old(fileDigests), DigestPuts(committed))
      ensures summaries == PutAll(old(summaries), SummaryPuts(committed))
      ensures forall s | s in committed :: Provenance(s, Flatten(backlogged), env, old(summaries))
      ensures old(Consistent(fileDigests, summaries)) ==> Consistent(fileDigests, summaries)
      ensures old(SummariesNonEmpty(summaries)) ==> SummariesNonEmpty(summaries)
    {
      var digested := DigestFiles(backlogged, env.load, env.hash);
      var misses := CheckSummaryCache(digested, env.cacheTxnOk, env.summaryReadFails);
      var summarized := SummarizeFiles(misses.sent, env.models, env.complete);
      assert summarized.sent == SummarizedOf(misses.sent, env);
      var persistError;
      persistError, committed := PersistSummaries(summarized.sent, env.timerFires, env.writeFaults);
      error := if misses.error.Some? then misses.error
               else if summarized.error.Some? then summarized.error
               else persistError;
      ProvenanceOfCommitted(backlogged, env, old(summaries));
      if Consistent(old(fileDigests), old(summaries)) {
        BatchKeepsConsistent(old(fileDigests), old(summaries), committed);
      }
      NonEmptyCommitted(backlogged, env, old(summaries));
      if SummariesNonEmpty(old(summaries)) {
        BatchKeepsNonEmpty(old(summaries), committed);
      }
    }

    /** `index_entries_changed_on_disk`: a full scan followed by the rest of
        the pipeline over the batches it sent (`scanned`). */
    method IndexEntriesChangedOnDisk(files: seq<Entry>, env: Environment)
      returns (error: Option<PipelineError>, ghost scanned: seq<seq<PathMtime>>, ghost committed: seq<SummarizedFile>)
      modifies this, backlog
      ensures !env.scanTxnOk ==> scanned == [] && backlog.files == old(backlog.files)
      ensures env.scanTxnOk ==>
                var scan := Scan(old(backlog.files), files, old(fileDigests), env.digestReadFails, backlog.needsDrainPolicy);
                SentMatches(scanned, scan.drains) && backlog.files == scan.pending
      ensures committed == PipelineRun(scanned, env, old(summaries)).committed
      ensures error == if env.scanTxnOk then PipelineRun(scanned, env, old(summaries)).error else Some(ReadTxnFailed)
      ensures fileDigests == PutAll(old(fileDigests), DigestPuts(committed))
      ensures summaries == PutAll(old(summaries), SummaryPuts(committed))
      ensures forall s | s in committed ::
                && FromOrigin((s.path, s.mtime), old(backlog.files),
                              SelectedPairs(files, old(fileDigests), env.digestReadFails))
                && Provenance(s, [(s.path, s.mtime)], env, old(summaries))
      ensures old(Consistent(fileDigests, summaries)) ==> Consistent(fileDigests, summaries)
      ensures old(SummariesNonEmpty(summaries)) ==> SummariesNonEmpty(summaries)
    {
      var scan := ScanEntries(files, env.scanTxnOk, env.digestReadFails);
      scanned := scan.sent;
      var pipelineError;
      pipelineError, committed := RunPipeline(scan.sent, env);
      error := if scan.error.Some? then scan.error else pipelineError;
      forall s | s in committed
        ensures FromOrigin((s.path, s.mtime), old(backlog.files),
                           SelectedPairs(files, old(fileDigests), env.digestReadFails))
      {
        assert (s.path, s.mtime) in Flatten(scanned);
      }
    }

    /** `index_updated_entries`: a delta scan followed by the rest of the
        pipeline over the batches it sent (`scanned`). */
    method IndexUpdatedEntries(updates: seq<PathUpdate>, snapshot: map<EntryId, Entry>, env: Environment)
      returns (error: Option<PipelineError>, ghost scanned: seq<seq<PathMtime>>, ghost committed: seq<SummarizedFile>)
      modifies this, backlog
      ensures !env.scanTxnOk ==> scanned == [] && backlog.files == old(backlog.files)
      ensures env.scanTxnOk ==>
                var scan := Scan(old(backlog.files), LiveFiles(updates, snapshot), old(fileDigests), env.digestReadFails,
                                 backlog.needsDrainPolicy);
                SentMatches(scanned, scan.drains) && backlog.files == scan.pending
      ensures committed == PipelineRun(scanned, env, old(summaries)).committed
      ensures error == if env.scanTxnOk then PipelineRun(scanned, env, old(summaries)).error else Some(ReadTxnFailed)
      ensures fileDigests == PutAll(old(fileDigests), DigestPuts(committed))
      ensures summaries == PutAll(old(summaries), SummaryPuts(committed))
      ensures forall s | s in committed ::
                && FromOrigin((s.path, s.mtime), old(backlog.files),
                              SelectedPairs(LiveFiles(updates, snapshot), old(fileDigests), env.digestReadFails))
                && Provenance(s, [(s.path, s.mtime)], env, old(summaries))
      ensures old(Consistent(fileDigests, summaries)) ==> Consistent(fileDigests, summaries)
      ensures old(SummariesNonEmpty(summaries)) ==> SummariesNonEmpty(summaries)
    {
      var scan := ScanUpdatedEntries(updates, snapshot, env.scanTxnOk, env.digestReadFails);
      scanned := scan.sent;
      var pipelineError;
      pipelineError, committed := RunPipeline(scan.sent, env);
      error := if scan.error.Some? then scan.error else pipelineError;
      forall s | s in committed
        ensures FromOrigin((s.path, s.mtime), old(backlog.files),
                           SelectedPairs(LiveFiles(updates, snapshot), old(fileDigests), env.digestReadFails))
      {
        assert (s.path, s.mtime) in Flatten(scanned);
      }
    }
  }

  /** `file_digests` after the write transactions of the batches `done` commit, one after another. */
  function DigestsAfter(fileDigests: map<string, FileDigest>, done: seq<seq<SummarizedFile>>): map<string, FileDigest>
    decreases |done|
  {
    if done == [] then fileDigests
    else PutAll(DigestsAfter(fileDigests, done[..|done| - 1]), DigestPuts(done[|done| - 1]))
  }

  /** `summaries` after the write transactions of the batches `done` commit, one after another. */
  function SummariesAfter(summaries: map<Digest, string>, done: seq<seq<SummarizedFile>>): map<Digest, string>
    decreases |done|
  {
    if done == [] then summaries
    else PutAll(SummariesAfter(summaries, done[..|done| - 1]), SummaryPuts(done[|done| - 1]))
  }

  /** Committing one more batch is one more `PutAll` of its digest puts. */
  lemma DigestsAfterNext(fileDigests: map<string, FileDigest>, batches: seq<seq<SummarizedFile>>, k: nat)
    requires k < |batches|
    ensures DigestsAfter(fileDigests, batches[..k + 1])
            == PutAll(DigestsAfter(fileDigests, batches[..k]), DigestPuts(batches[k]))
  {
    assert batches[..k + 1][..k] == batches[..k];
  }

  /** Committing one more batch is one more `PutAll` of its summary puts. */
  lemma SummariesAfterNext(summaries: map<Digest, string>, batches: seq<seq<SummarizedFile>>, k: nat)
    requires k < |batches|
    ensures SummariesAfter(summaries, batches[..k + 1])
            == PutAll(SummariesAfter(summaries, batches[..k]), SummaryPuts(batches[k]))
  {
    assert batches[..k + 1][..k] == batches[..k];
  }

  /** A table that is `table` after the puts `before`, after the further puts
      `more`, is `table` after `all` when `all` is `before` followed by `more`. */
  lemma PutAllStep<K, V>(table: map<K, V>, after: map<K, V>, before: seq<(K, V)>, more: seq<(K, V)>,
                         all: seq<(K, V)>)
    requires after == PutAll(table, before)
    requires all == before + more
    ensures PutAll(after, more) == PutAll(table, all)
  {
    PutAllConcat(table, before, more);
  }

  /** Committing batches one by one is committing their concatenation in
      one go, for `file_digests`. */
  lemma {:induction false} DigestsAfterIsPutAll(fileDigests: map<string, FileDigest>, done: seq<seq<SummarizedFile>>)
    ensures DigestsAfter(fileDigests, done) == PutAll(fileDigests, DigestPuts(Flatten(done)))
    decreases |done|
  {
    if done != [] {
      var init := done[..|done| - 1];
      var last := done[|done| - 1];
      DigestsAfterIsPutAll(fileDigests, init);
      assert DigestPuts(Flatten(done)) == DigestPuts(Flatten(init)) + DigestPuts(last) by {
        assert init + [last] == done;
        FlattenAppend(init, last);
        DigestPutsConcat(Flatten(init), last);
      }
      PutAllStep(fileDigests, DigestsAfter(fileDigests, init), DigestPuts(Flatten(init)), DigestPuts(last),
                 DigestPuts(Flatten(done)));
    }
  }

  /** The same for `summaries`. */
  lemma {:induction false} SummariesAfterIsPutAll(summaries: map<Digest, string>, done: seq<seq<SummarizedFile>>)
    ensures SummariesAfter(summaries, done) == PutAll(summaries, SummaryPuts(Flatten(done)))
    decreases |done|
  {
    if done != [] {
      var init := done[..|done| - 1];
      var last := done[|done| - 1];
      SummariesAfterIsPutAll(summaries, init);
      assert SummaryPuts(Flatten(done)) == SummaryPuts(Flatten(init)) + SummaryPuts(last) by {
        assert init + [last] == done;
        FlattenAppend(init, last);
        SummaryPutsConcat(Flatten(init), last);
      }
      PutAllStep(summaries, SummariesAfter(summaries, init), SummaryPuts(Flatten(init)), SummaryPuts(last),
                 SummaryPuts(Flatten(done)));
    }
  }

  /** The batches up to `k` make a prefix of the whole stream, and all of it when `k` is the last. */
  lemma FlattenPrefix<T>(batches: seq<seq<T>>, k: nat)
    requires k <= |batches|
    ensures Flatten(batches[..k]) <= Flatten(batches)
    ensures k == |batches| ==> Flatten(batches[..k]) == Flatten(batches)
  {
    FlattenConcat(batches[..k], batches[k..]);
    assert batches[..k] + batches[k..] == batches;
  }

  /** One more committed batch extends the committed prefix of the stream by that batch. */
  lemma CommittedAppend<T>(batches: seq<seq<T>>, k: nat)
    requires k < |batches|
    ensures Flatten(batches[..k + 1]) == Flatten(batches[..k]) + batches[k]
  {
    assert batches[..k + 1] == batches[..k] + [batches[k]];
    FlattenAppend(batches[..k], batches[k]);
  }

  /** The error of a run is None exactly when each stage's index reaches its end. */
  lemma PipelineRunStagesIff(backlogged: seq<seq<PathMtime>>, env: Environment, summaries: map<Digest, string>)
    ensures var digested := Digested(Flatten(backlogged), env.load, env.hash);
            var k := FirstFailure(env.cacheTxnOk, 0, |digested|);
            var misses := CacheMisses(digested[..k], summaries, env.summaryReadFails);
            var batches := Batches(SummarizedOf(misses, env), env.timerFires, 0);
            PipelineRun(backlogged, env, summaries).error == None
            <==> && k == |digested|
                 && (SummaryModel(env.models).Some? || misses == [])
                 && FirstAbort(batches, env.writeFaults, 0) == |batches|
  {
  }

  /** A run ends without error iff every cache read transaction opens, the
      model is found or there is nothing to summarize, and every write
      transaction commits. */
  lemma PipelineRunSucceedsIff(backlogged: seq<seq<PathMtime>>, env: Environment, summaries: map<Digest, string>)
    ensures var digested := Digested(Flatten(backlogged), env.load, env.hash);
            var misses := CacheMisses(digested, summaries, env.summaryReadFails);
            var batches := Batches(SummarizedOf(misses, env), env.timerFires, 0);
            PipelineRun(backlogged, env, summaries).error == None
            <==> && (forall i | 0 <= i < |digested| :: env.cacheTxnOk(i))
                 && (SummaryModel(env.models).Some? || misses == [])
                 && (forall j | 0 <= j < |batches| :: !Aborts(env.writeFaults(j), batches[j]))
  {
    var digested := Digested(Flatten(backlogged), env.load, env.hash);
    var k := FirstFailure(env.cacheTxnOk, 0, |digested|);
    PipelineRunStagesIff(backlogged, env, summaries);
    FirstFailureReachesEnd(env.cacheTxnOk, 0, |digested|);
    var misses := CacheMisses(digested, summaries, env.summaryReadFails);
    FirstAbortReachesEnd(Batches(SummarizedOf(misses, env), env.timerFires, 0), env.writeFaults, 0);
    if k == |digested| {
      assert digested[..k] == digested;
    }
  }

  /** A run without error commits everything the summarizer forwards for
      all the cache misses; without the model it commits nothing. */
  lemma CompleteRunCommitsAll(backlogged: seq<seq<PathMtime>>, env: Environment, summaries: map<Digest, string>)
    ensures var digested := Digested(Flatten(backlogged), env.load, env.hash);
            var o := PipelineRun(backlogged, env, summaries);
            o.error == None ==> o.committed == SummarizedOf(CacheMisses(digested, summaries, env.summaryReadFails), env)
    ensures SummaryModel(env.models).None? ==> PipelineRun(backlogged, env, summaries).committed == []
  {
    var digested := Digested(Flatten(backlogged), env.load, env.hash);
    var k := FirstFailure(env.cacheTxnOk, 0, |digested|);
    var misses := CacheMisses(digested[..k], summaries, env.summaryReadFails);
    var batches := Batches(SummarizedOf(misses, env), env.timerFires, 0);
    var j := FirstAbort(batches, env.writeFaults, 0);
    if PipelineRun(backlogged, env, summaries).error == None {
      assert digested[..k] == digested;
      FlattenPrefix(batches, j);
    }
    if SummaryModel(env.models).None? {
      assert batches == [];
    }
  }

  /** After a run without error, a file is committed iff some digested file
      missed the cache and the model answered its contents with that
      file's non-empty summary. */
  lemma CompleteRunMembership(backlogged: seq<seq<PathMtime>>, env: Environment, summaries: map<Digest, string>,
                              s: SummarizedFile)
    requires PipelineRun(backlogged, env, summaries).error == None
    requires SummaryModel(env.models).Some?
    ensures s in PipelineRun(backlogged, env, summaries).committed
            <==> exists f | f in Digested(Flatten(backlogged), env.load, env.hash) ::
                   && !env.summaryReadFails(f.digest) && f.digest !in summaries
                   && Forwards(f, s, SummaryModel(env.models).value, env.complete)
  {
    var digested := Digested(Flatten(backlogged), env.load, env.hash);
    var misses := CacheMisses(digested, summaries, env.summaryReadFails);
    var model := SummaryModel(env.models).value;
    CompleteRunCommitsAll(backlogged, env, summaries);
    SummarizedMembership(misses, model, env.complete, s);
    if s in PipelineRun(backlogged, env, summaries).committed {
      var f :| f in misses && Forwards(f, s, model, env.complete);
      CacheMissesMembership(digested, summaries, env.summaryReadFails, f);
    } else {
      forall f | f in digested && !env.summaryReadFails(f.digest) && f.digest !in summaries
        ensures !Forwards(f, s, model, env.complete)
      {
        CacheMissesMembership(digested, summaries, env.summaryReadFails, f);
      }
    }
  }

  /** A run commits a prefix of what the summarizer forwarded for the cache misses it found. */
  lemma CommittedIsForwarded(backlogged: seq<seq<PathMtime>>, env: Environment, summaries: map<Digest, string>)
    ensures var digested := Digested(Flatten(backlogged), env.load, env.hash);
            var k := FirstFailure(env.cacheTxnOk, 0, |digested|);
            PipelineRun(backlogged, env, summaries).committed
              <= SummarizedOf(CacheMisses(digested[..k], summaries, env.summaryReadFails), env)
  {
    var digested := Digested(Flatten(backlogged), env.load, env.hash);
    var k := FirstFailure(env.cacheTxnOk, 0, |digested|);
    var batches := Batches(SummarizedOf(CacheMisses(digested[..k], summaries, env.summaryReadFails), env), env.timerFires, 0);
    FlattenPrefix(batches, FirstAbort(batches, env.writeFaults, 0));
  }

  /** Each file a run commits traces back through the summarizer, the cache
      check and the digester to a (path, mtime) the scanner sent. */
  lemma ProvenanceOfCommitted(backlogged: seq<seq<PathMtime>>, env: Environment, summaries: map<Digest, string>)
    ensures forall s | s in PipelineRun(backlogged, env, summaries).committed ::
              Provenance(s, Flatten(backlogged), env, summaries)
  {
    var digested := Digested(Flatten(backlogged), env.load, env.hash);
    var k := FirstFailure(env.cacheTxnOk, 0, |digested|);
    var misses := CacheMisses(digested[..k], summaries, env.summaryReadFails);
    CommittedIsForwarded(backlogged, env, summaries);
    forall s | s in PipelineRun(backlogged, env, summaries).committed
      ensures Provenance(s, Flatten(backlogged), env, summaries)
    {
      assert s in SummarizedOf(misses, env);
      var model := SummaryModel(env.models).value;
      SummarizedMembership(misses, model, env.complete, s);
      var f :| f in misses && Forwards(f, s, model, env.complete);
      CacheMissesMembership(digested[..k], summaries, env.summaryReadFails, f);
      assert f in digested;
      DigestedMembership(Flatten(backlogged), env.load, env.hash, f);
    }
  }

  /** The summarizer forwards only non-empty summaries, so a run commits none either. */
  lemma NonEmptyCommitted(backlogged: seq<seq<PathMtime>>, env: Environment, summaries: map<Digest, string>)
    ensures var committed := PipelineRun(backlogged, env, summaries).committed;
            forall i | 0 <= i < |committed| :: committed[i].summary != ""
  {
    var digested := Digested(Flatten(backlogged), env.load, env.hash);
    var k := FirstFailure(env.cacheTxnOk, 0, |digested|);
    var misses := CacheMisses(digested[..k], summaries, env.summaryReadFails);
    var committed := PipelineRun(backlogged, env, summaries).committed;
    CommittedIsForwarded(backlogged, env, summaries);
    forall i | 0 <= i < |committed| ensures committed[i].summary != "" {
      var s := committed[i];
      assert s in SummarizedOf(misses, env);
      var model := SummaryModel(env.models).value;
      SummarizedMembership(misses, model, env.complete, s);
    }
  }

  /** After a batch commits, a rescan of one of its files with the same mtime
      does not backlog it again, provided the path has no '/' and no later file
      of the batch has the same path. */
  lemma RescanSkipsCommitted(table: map<string, FileDigest>, batch: seq<SummarizedFile>, j: nat,
                             entry: Entry, readFails: string -> bool)
    requires j < |batch|
    requires forall i | j < i < |batch| :: batch[i].path != batch[j].path
    requires entry.path == batch[j].path && entry.mtime == batch[j].mtime
    requires '/' !in entry.path
    ensures !Selected(entry, PutAll(table, DigestPuts(batch)), readFails)
  {
    DbKeyIsPathIff(entry.path);
    var puts := DigestPuts(batch);
    forall i | 0 <= i < |batch| ensures puts[i].0 == batch[i].path {
      DigestPutsAt(batch, i);
    }
    DigestPutsAt(batch, j);
    PutAllLastWriteWins(table, puts, j);
  }

  /** The persister writes the record under the display path but the scanner
      looks it up under the NUL-separated key, so an unchanged file in a
      subdirectory is backlogged again on every scan. */
  lemma RescanRedoesNestedPath()
    ensures var batch := [SummarizedFile("a/b", Some(7), "d", "B.")];
            var entry := Entry("a/b", 10, Some(7), true);
            Selected(entry, PutAll(map[], DigestPuts(batch)), _ => false)
  {
    var batch := [SummarizedFile("a/b", Some(7), "d", "B.")];
    var puts := DigestPuts(batch);
    assert puts == [("a/b", FileDigest(Some(7), "d"))] by {
      DigestPutsAt(batch, 0);
    }
    assert puts[..0] == [];
    assert PutAll(map[], puts[..0]) == map[];
    var table := PutAll(map[], puts);
    assert table == map["a/b" := FileDigest(Some(7), "d")];
    var key := DbKeyForPath("a/b");
    assert "a/b"[1] == '/';
    assert key[1] == '\0';
    assert key !in table;
  }
}
