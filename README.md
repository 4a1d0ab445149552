# Summary index of the semantic index

This project models the summary index of the `semantic_index` crate. The
summary index keeps an LLM summary of every source file of a worktree,
asked for in three sentences with no newlines. It holds two tables.
`file_digests` maps a path key to the mtime and the BLAKE3 digest last
persisted for it. `summaries` maps a digest to the summary of contents with
that digest. It also shares one `SummaryBacklog` of
files that wait to be re-digested.

An indexing run is a pipeline of five stages:

1. A scanner walks the snapshot. It makes a full scan (`scan_entries`) or a
   delta scan over a set of updated entries (`scan_updated_entries`). Each
   file goes through `add_to_backlog`, which looks the file's record up under
   `db_key_for_path(path)`. When the file's mtime differs from the remembered
   one, it puts the file into the backlog. When the backlog asks to be
   drained, the drained (path, mtime) batch is sent on.
2. The digester loads each file. It drops a file that does not load, and
   hashes the contents of the rest.
3. The cache check forwards only the files whose digest has no summary yet.
4. The summarizer asks the model named `gpt-4o-mini` for a summary, using a
   fixed prompt. A provider failure becomes an empty summary, and empty
   summaries are dropped. A missing model is an error.
5. The persister cuts the stream into batches of at most 4096 files, or fewer
   when its two-second timer fires. It commits each batch in one write
   transaction that puts the file's record into `file_digests` and its
   summary into `summaries`.

The model is a class `SummaryIndexing.SummaryIndex`.
- Its two maps stand for the two tables.
- The backlog is a `Backlog.SummaryBacklog` object, with an abstract drain
  policy.
- Every stage is a method with a loop over sequences.
- Each method's contract ties its result and its new state to a
  specification function. The scanners follow `Scanning.Scan`, the state of
  the backlog after each entry and the drains it caused. The stages after
  the scanner follow `SummaryIndexing.PipelineRun`, the committed files and
  the error of a run. Lemmas say what those functions mean: the membership
  iffs, order, the batch bounds, last-write-wins, untouched keys, when a run
  succeeds, and which table invariants a commit keeps.
- The top-level methods `IndexEntriesChangedOnDisk` and `IndexUpdatedEntries`
  compose the stages one after another. They state the new backlog, the
  scanned batches, the committed files and the error exactly. They also
  prove three things:
  - every persisted file traces back to a (path, mtime) the scanner selected
    or the backlog already held, through a successful load, a cache miss and
    a non-empty model answer;
  - every digest record keeps a summary behind it;
  - no stored summary is ever empty.

Everything outside the index is a parameter of the model, collected in
`SummaryIndexing.Environment`:
- the file loader, with the worktree root join folded in;
- BLAKE3 plus hex encoding, as an uninterpreted function whose results hold
  at most 64 characters;
- which database operations fail;
- the model registry and the completion provider. The provider is a
  function, so identical requests get identical answers within one run;
- where the persister's timer closes a batch early.

The scanner and the persister use different keys for the same file. The
scanner looks records up under `db_key_for_path(path)`, which turns every `/`
into a NUL character. The persister writes under the display path. The model
keeps this as the code has it:
- `SummaryIndexing.RescanSkipsCommitted` proves that a committed file is not
  backlogged again on a rescan only for a path with no `/`.
- `SummaryIndexing.RescanRedoesNestedPath` exhibits a path in a subdirectory
  (`a/b`) that is backlogged again after its record was committed.
- `Scanning.DbKeyCollides` shows that two different strings can share a
  key. A worktree path holds no NUL, and for such strings the key is
  injective (`Scanning.DbKeyInjective`).

Three other consequences of the code, stated by the contracts:
- A selected file that does not make the backlog ask to be drained stays in
  the backlog when the run ends, and that run does not summarize it. The new
  backlog is `Scan`'s pending state. For example, one changed file in a small
  worktree waits for a later scan that fills the backlog.
- An entry with no mtime and no record is never backlogged, because an
  absent record counts as "no mtime" (`Scanning.NeedsBacklogCases`).
- A cache hit does not refresh the file's record. Such a file is not
  forwarded, and its record keeps the old mtime.

## Model

| member | source | states |
|---|---|---|
| `Scanning.DbKeyForPath` | crates/semantic_index/src/summary_index.rs:549-551 | the key has the path's length, maps each `/` to NUL and keeps every other character, and holds no `/` |
| `Scanning.DbKeyIsPathIff` | crates/semantic_index/src/summary_index.rs:549-551 | the key equals the path exactly when the path has no `/` |
| `Scanning.DbKeyCollides` | crates/semantic_index/src/summary_index.rs:550 | `src/lib.rs` and `src\0lib.rs` are different strings with the same key |
| `Scanning.DbKeyInjective` | crates/semantic_index/src/summary_index.rs:549-551 | two strings without NUL, as every worktree path is, with the same key are equal |
| `Scanning.Lookup` | crates/semantic_index/src/summary_index.rs:267 | defines the `file_digests` lookup under a key: the stored record, or none when the key is absent |
| `Scanning.SavedMtime` | crates/semantic_index/src/summary_index.rs:271 | defines the remembered mtime of a lookup result: the record's mtime, with no record counting as no mtime |
| `Scanning.NeedsBacklog` | crates/semantic_index/src/summary_index.rs:271 | defines the change test: the entry's mtime differs from the remembered one |
| `Scanning.Selected` | crates/semantic_index/src/summary_index.rs:265-271 | defines whether `add_to_backlog` inserts an entry: the lookup under `db_key_for_path` does not fail and the change test holds |
| `Scanning.BacklogStep` | crates/semantic_index/src/summary_index.rs:265-290 | defines one `add_to_backlog` call as a relation: an unselected entry changes nothing and returns nothing; a selected one is inserted with its (size, mtime), and the whole backlog is returned and emptied exactly when the policy asks |
| `Scanning.NeedsBacklogCases` | crates/semantic_index/src/summary_index.rs:267-271 | an unrecorded entry is backlogged iff it has an mtime; a recorded one iff its mtime differs from the recorded mtime |
| `Scanning.SelectedPairsMembership` | crates/semantic_index/src/summary_index.rs:239-241 | a (path, mtime) pair is selected by a scan iff some scanned entry with that path and mtime passes the lookup and the mtime test |
| `Scanning.AccountedStart` | crates/semantic_index/src/summary_index.rs:234-239 | before any entry is scanned, the backlog accounts for itself with nothing sent |
| `Scanning.AccountedStep` | crates/semantic_index/src/summary_index.rs:240-245 | one `add_to_backlog` call keeps every sent batch non-empty, everything sent or pending traceable to the old backlog or a selected entry, and every such path pending or sent |
| `Scanning.ScanAdd` | crates/semantic_index/src/summary_index.rs:265-290 | defines the effect of one `add_to_backlog` call on a scan's outcome: the drained backlogs so far and the pending backlog |
| `Scanning.Scan` | crates/semantic_index/src/summary_index.rs:239-245 | defines the outcome of scanning a list of entries in order from a starting backlog: each drain, in order, and the backlog left pending |
| `Scanning.ScanAppend` | crates/semantic_index/src/summary_index.rs:239-245 | scanning one more entry applies one more `add_to_backlog` step to the outcome of the shorter scan |
| `Scanning.SentMatchesStep` | crates/semantic_index/src/summary_index.rs:240-245 | an `add_to_backlog` call keeps the sent batches listing the scan's drains one for one, and leaves the backlog as the scan's pending state |
| `Scanning.ScanDrainsAsked` | crates/semantic_index/src/summary_index.rs:274-278 | every drain of a scan happened because the policy asked for it, and handed out a non-empty backlog |
| `Scanning.ScanAccounted` | crates/semantic_index/src/summary_index.rs:234-245 | the batches a scan sends and its pending backlog account for the old backlog and the selected entries: every sent batch is non-empty, everything sent or pending traces back to one of them, and each of their paths is pending or was sent |
| `Scanning.ScanAccountedDrain` | crates/semantic_index/src/summary_index.rs:240-245 | the step of that account where the last entry makes the backlog drain |
| `Scanning.ScanAccountedKeep` | crates/semantic_index/src/summary_index.rs:240-245 | the step of that account where the backlog does not drain |
| `Scanning.LiveFile` | crates/semantic_index/src/summary_index.rs:310-337 | defines the entry one delta-scan update hands to `add_to_backlog`: the snapshot's entry for a non-removal update when it exists and is a file, else none |
| `Scanning.LiveFiles` | crates/semantic_index/src/summary_index.rs:309-337 | defines the entries a delta scan hands to `add_to_backlog`, in update order |
| `Scanning.LiveFilesNext` | crates/semantic_index/src/summary_index.rs:309-337 | one more update adds its live file entry, if any, to the entries the delta scan hands to `add_to_backlog` |
| `Scanning.LiveFilesMembership` | crates/semantic_index/src/summary_index.rs:309-337 | an entry reaches `add_to_backlog` in a delta scan iff a non-removal update names its id, the snapshot holds it and it is a file |
| `Backlog.ListEntries` | crates/semantic_index/src/summary_index.rs:277 | the drained list names every backlogged path exactly once, each with its recorded mtime, and nothing else |
| `Backlog.SummaryBacklog.constructor` | crates/semantic_index/src/summary_index.rs:117 | a new backlog is empty and keeps the given drain policy |
| `Backlog.SummaryBacklog.Insert` | crates/semantic_index/src/summary_index.rs:274 | the path's entry becomes (size, mtime), replacing any earlier one; no other path changes |
| `Backlog.SummaryBacklog.NeedsDrain` | crates/semantic_index/src/summary_index.rs:276 | defines `needs_drain` as the backlog's abstract policy applied to its current contents |
| `Backlog.SummaryBacklog.Drain` | crates/semantic_index/src/summary_index.rs:276-278 | draining returns every entry of the old backlog once and leaves the backlog empty |
| `SummaryIndexing.SummaryIndex.constructor` | crates/semantic_index/src/summary_index.rs:102-119 | the index starts with the given tables and a fresh empty backlog |
| `SummaryIndexing.SummaryIndex.AddToBacklog` | crates/semantic_index/src/summary_index.rs:259-291 | a failed lookup or an unchanged mtime leaves the backlog as it was and returns nothing; otherwise the entry is inserted, and the backlog is drained (returned whole and emptied) exactly when its policy asks for it |
| `SummaryIndexing.SummaryIndex.ScanEntries` | crates/semantic_index/src/summary_index.rs:229-257 | a failed read transaction ends the scan with an error, sending nothing and leaving the backlog alone; otherwise the sent batches are exactly the drains of `Scan` over the files, one for one and each listing its backlog, and the backlog is left in `Scan`'s pending state; the account of `ScanAccounted` follows |
| `SummaryIndexing.SummaryIndex.ScanUpdatedEntries` | crates/semantic_index/src/summary_index.rs:293-348 | as the full scan, with `Scan` over the live file entries of the updates in order; removals change nothing |
| `SummaryIndexing.SummaryIndex.ScanUpdate` | crates/semantic_index/src/summary_index.rs:310-337 | a live change of an entry the snapshot holds as a file is one `add_to_backlog` step; any other update returns nothing and leaves the backlog alone |
| `Digesting.Digested` | crates/semantic_index/src/summary_index.rs:363-404 | defines the digester's output for a list of (path, mtime) pairs, in order: each pair whose file loads, with the hash of its contents; a file that fails to load is dropped |
| `Digesting.DigestedMembership` | crates/semantic_index/src/summary_index.rs:365-393 | a file is emitted iff its (path, mtime) was handed in, its contents loaded and its digest is the hash of those contents |
| `Digesting.DigestedLength` | crates/semantic_index/src/summary_index.rs:370-379 | the digester never emits more files than it was handed, because unreadable files are dropped |
| `Digesting.SameContentsSameDigest` | crates/semantic_index/src/summary_index.rs:381-385 | two emitted files with equal contents have equal digests |
| `Digesting.DigestFiles` | crates/semantic_index/src/summary_index.rs:363-404 | one worker's output over all batches is the digested list of their concatenation, in order |
| `CacheCheck.CacheMisses` | crates/semantic_index/src/summary_index.rs:204-217 | defines the files the cache check forwards, in order: those whose `summaries` lookup succeeds and finds no summary; a failed lookup drops the file |
| `CacheCheck.CacheMissesMembership` | crates/semantic_index/src/summary_index.rs:204-217 | a file is forwarded iff it arrived, its lookup did not fail and its digest has no summary |
| `CacheCheck.CacheMissesInOrder` | crates/semantic_index/src/summary_index.rs:199-218 | the forwarded files are an order-preserving subsequence of the input |
| `CacheCheck.CacheMissesPrefix` | crates/semantic_index/src/summary_index.rs:199-209 | the files forwarded for a prefix of the input are a prefix of those forwarded for all of it |
| `SummaryIndexing.SummaryIndex.CheckSummaryCache` | crates/semantic_index/src/summary_index.rs:190-227 | forwards the cache misses among the files before the first failed read transaction, and ends with a read error exactly when such a failure occurs |
| `SummaryTypes.FirstFailure` | crates/semantic_index/src/summary_index.rs:199-202 | the first file whose read transaction fails to open, or the file count when all open; every earlier one opened |
| `SummaryTypes.FirstFailureReachesEnd` | crates/semantic_index/src/summary_index.rs:199-202 | the search for a failed read transaction reaches the end iff every transaction opens |
| `Summarizing.Prompt` | crates/semantic_index/src/summary_index.rs:463-464 | defines the prompt: the fixed instruction asking for 3 sentences with no newlines, a newline, then the code |
| `Summarizing.PromptParts` | crates/semantic_index/src/summary_index.rs:463-464 | the prompt is the fixed instruction, a newline, then the code |
| `Summarizing.PromptInjective` | crates/semantic_index/src/summary_index.rs:464 | different code gives different prompts |
| `Summarizing.SummaryRequest` | crates/semantic_index/src/summary_index.rs:472-479 | defines the request: one user message holding the prompt and no stop sequences |
| `Summarizing.FirstModelNamed` | crates/semantic_index/src/summary_index.rs:455-457 | the index of the first registry model with the given name at or after `from`, or the registry's length when none has it; every model before it has another name |
| `Summarizing.SummaryModel` | crates/semantic_index/src/summary_index.rs:454-457 | the lookup finds nothing iff no available model is named `gpt-4o-mini`; otherwise it finds the first model, in registry order, with that name |
| `Summarizing.OrEmpty` | crates/semantic_index/src/summary_index.rs:485-506 | defines the summary text of a provider answer: the answer itself, or the empty string when the provider failed |
| `Summarizing.SummarizeCode` | crates/semantic_index/src/summary_index.rs:452-508 | an error (model not found) iff the model is missing; otherwise the provider's answer, or the empty string when the provider fails |
| `Summarizing.Summarized` | crates/semantic_index/src/summary_index.rs:423-440 | defines the summarizer's output once the model is found, in order: each file with the provider's answer for its contents, dropping files whose answer is empty |
| `Summarizing.SummarizedMembership` | crates/semantic_index/src/summary_index.rs:423-440 | a summarized file is forwarded iff some input file has its path, mtime and digest and the provider answered that file's contents with its non-empty summary |
| `Summarizing.SummarizeFiles` | crates/semantic_index/src/summary_index.rs:416-450 | with the model present, forwards exactly the non-empty summaries in input order; without it, fails on the first file; with no files, does nothing |
| `Persistence.BatchLength` | crates/semantic_index/src/summary_index.rs:519 | a batch holds 1 to 4096 files and closes early only when the timer fires |
| `Persistence.Batches` | crates/semantic_index/src/summary_index.rs:519 | the batches concatenate to the stream in order, and each holds 1 to 4096 files |
| `Persistence.FullBatchesWithoutTimer` | crates/semantic_index/src/summary_index.rs:519 | without the timer, every batch but the last holds exactly 4096 files |
| `Persistence.PutAll` | crates/semantic_index/src/summary_index.rs:522-537 | defines a table after a transaction puts a list of writes into it, one after another |
| `Persistence.PutAllConcat` | crates/semantic_index/src/summary_index.rs:522-537 | putting one list of writes and then another is putting their concatenation |
| `Persistence.PutAllKeys` | crates/semantic_index/src/summary_index.rs:522-537 | after the puts the keys are the old ones plus the written ones |
| `Persistence.PutAllLastWriteWins` | crates/semantic_index/src/summary_index.rs:522-537 | the last put of a key decides its value |
| `Persistence.PutAllUntouched` | crates/semantic_index/src/summary_index.rs:522-537 | a key no put names keeps its value or stays absent |
| `Persistence.DigestPuts` | crates/semantic_index/src/summary_index.rs:528-535 | defines the `file_digests` puts of a batch, one per file in order: the display path to (mtime, digest) |
| `Persistence.SummaryPuts` | crates/semantic_index/src/summary_index.rs:536 | defines the `summaries` puts of a batch, one per file in order: the digest to the summary |
| `Persistence.DigestPutsAt` | crates/semantic_index/src/summary_index.rs:528-535 | the `i`-th `file_digests` put is the `i`-th file's (mtime, digest) under its display path; there is one put per file |
| `Persistence.SummaryPutsAt` | crates/semantic_index/src/summary_index.rs:536 | the `i`-th `summaries` put maps the `i`-th file's digest to its summary |
| `Persistence.DigestPutsConcat` | crates/semantic_index/src/summary_index.rs:522-535 | the digest puts of two lists of files concatenate |
| `Persistence.SummaryPutsConcat` | crates/semantic_index/src/summary_index.rs:522-536 | the summary puts of two lists of files concatenate |
| `Persistence.DigestPutsStep` | crates/semantic_index/src/summary_index.rs:528-535 | the digest puts of one more file of a batch are one more `file_digests` update, under its display path |
| `Persistence.SummaryPutsStep` | crates/semantic_index/src/summary_index.rs:536 | the summary puts of one more file of a batch are one more `summaries` update, under its digest |
| `Persistence.BatchKeepsConsistent` | crates/semantic_index/src/summary_index.rs:528-536 | a committed batch keeps every digest record backed by a summary |
| `Persistence.BatchKeepsNonEmpty` | crates/semantic_index/src/summary_index.rs:536 | a batch of non-empty summaries keeps every stored summary non-empty |
| `Persistence.Aborts` | crates/semantic_index/src/summary_index.rs:521-538 | defines when a batch's write transaction ends without committing: it fails to open, a put of one of the batch's files fails, or the commit fails |
| `Persistence.AbortError` | crates/semantic_index/src/summary_index.rs:521-538 | defines the error of an aborted transaction: a failed open, a failed put or a failed commit |
| `SummaryIndexing.SummaryIndex.WriteBatch` | crates/semantic_index/src/summary_index.rs:521-538 | if the transaction fails to open, a put fails or the commit fails, that error is returned and neither table changes; otherwise both tables receive every put of the batch, in order |
| `SummaryIndexing.FirstAbort` | crates/semantic_index/src/summary_index.rs:520-538 | the first batch whose transaction does not commit, or the batch count when all commit |
| `SummaryIndexing.FirstAbortReachesEnd` | crates/semantic_index/src/summary_index.rs:520-538 | the search for an aborting batch reaches the end iff no batch aborts |
| `SummaryIndexing.SummaryIndex.CommitBatches` | crates/semantic_index/src/summary_index.rs:520-542 | the batches before the first failure are committed in order, and the tables are the old ones with exactly their puts applied; that failure's error is returned, or none |
| `SummaryIndexing.SummaryIndex.PersistSummaries` | crates/semantic_index/src/summary_index.rs:510-546 | the committed files are a prefix of the stream, made of the whole batches before the first failure, and all of it when no error is returned; the tables are the old ones with those puts applied |
| `SummaryIndexing.FlattenPrefix` | crates/semantic_index/src/summary_index.rs:520 | the batches up to any index make a prefix of the stream, and all of it at the last index |
| `SummaryIndexing.CommittedAppend` | crates/semantic_index/src/summary_index.rs:520-542 | one more committed batch extends the committed prefix of the stream by that batch |
| `SummaryIndexing.DigestsAfter` | crates/semantic_index/src/summary_index.rs:520-542 | defines `file_digests` after the first batches commit one transaction at a time |
| `SummaryIndexing.SummariesAfter` | crates/semantic_index/src/summary_index.rs:520-542 | the same for `summaries` |
| `SummaryIndexing.DigestsAfterNext` | crates/semantic_index/src/summary_index.rs:520-542 | one more committed batch applies that batch's digest puts to `file_digests` |
| `SummaryIndexing.SummariesAfterNext` | crates/semantic_index/src/summary_index.rs:520-542 | one more committed batch applies that batch's summary puts to `summaries` |
| `SummaryIndexing.PutAllStep` | crates/semantic_index/src/summary_index.rs:522-537 | putting more writes after a list of writes is putting the concatenated list |
| `SummaryIndexing.DigestsAfterIsPutAll` | crates/semantic_index/src/summary_index.rs:520-542 | committing the first batches one transaction at a time leaves `file_digests` as putting their concatenation in one go |
| `SummaryIndexing.SummariesAfterIsPutAll` | crates/semantic_index/src/summary_index.rs:520-542 | the same for `summaries` |
| `SummaryIndexing.PipelineRunStagesIff` | crates/semantic_index/src/summary_index.rs:137-149 | a run ends without error iff the cache check reaches the last digested file, the model is found or nothing missed the cache, and the search for an aborting batch reaches the end |
| `SummaryIndexing.PipelineRunSucceedsIff` | crates/semantic_index/src/summary_index.rs:137-149 | a run ends without error iff every cache read transaction opens, the model is found or nothing missed the cache, and every batch commits |
| `SummaryIndexing.CompleteRunCommitsAll` | crates/semantic_index/src/summary_index.rs:137-149 | a run without error commits everything the summarizer forwards for all cache misses; a run without the model commits nothing |
| `SummaryIndexing.CompleteRunMembership` | crates/semantic_index/src/summary_index.rs:137-149 | after a run without error, a file is committed iff some digested file missed the cache and the model answered its contents with that file's non-empty summary |
| `SummaryIndexing.CommittedIsForwarded` | crates/semantic_index/src/summary_index.rs:137-149 | a run commits a prefix of what the summarizer forwarded for the cache misses found before the first failed read transaction |
| `SummaryIndexing.ProvenanceOfCommitted` | crates/semantic_index/src/summary_index.rs:137-140 | every committed file was handed to the digester, loaded, hashed to its digest, missed the cache, and got its non-empty summary from the model |
| `SummaryIndexing.NonEmptyCommitted` | crates/semantic_index/src/summary_index.rs:431-439 | no committed file carries an empty summary |
| `SummaryIndexing.SummarizedOf` | crates/semantic_index/src/summary_index.rs:416-450 | defines what the summarizer forwards for the cache misses: nothing when the model is missing, else the summarized files |
| `SummaryIndexing.PipelineRun` | crates/semantic_index/src/summary_index.rs:137-149 | defines a run after the scanner: the digester, the cache check up to its first failed read transaction, the summarizer, and the persister up to its first failed write transaction; the committed files and the earliest stage's error |
| `SummaryIndexing.SummaryIndex.RunPipeline` | crates/semantic_index/src/summary_index.rs:137-149 | the stages after the scanner commit exactly `PipelineRun`'s files and return its error; the tables change only by those puts, each committed file has a traceable origin, and the tables stay consistent and free of empty summaries |
| `SummaryIndexing.SummaryIndex.IndexEntriesChangedOnDisk` | crates/semantic_index/src/summary_index.rs:129-158 | a failed scan transaction is an error that scans nothing and leaves the backlog alone; otherwise the scanned batches and the new backlog are those of `Scan` over the files; the committed files and the error are `PipelineRun`'s over the scanned batches; every committed file comes from the old backlog or a selected snapshot file, with its provenance; the table invariants hold |
| `SummaryIndexing.SummaryIndex.IndexUpdatedEntries` | crates/semantic_index/src/summary_index.rs:160-188 | as the full run, with `Scan` over the live file entries of the updates |
| `SummaryIndexing.RescanSkipsCommitted` | crates/semantic_index/src/summary_index.rs:265-271 | after a commit, a rescan of a committed file with the same mtime does not backlog it, provided its path has no `/` and no later file of the batch has that path |
| `SummaryIndexing.RescanRedoesNestedPath` | crates/semantic_index/src/summary_index.rs:528-530 | a committed `a/b` with an unchanged mtime is backlogged again, since its record sits under the display path and not under its key |

## Left out

- Channels, their capacities (512, 2048) and backpressure, the `num_cpus` digester pool and `try_join!`. The stages run one after another over the complete output of the previous stage. With several digester workers the real order across batches may differ; the model fixes one sequential worker.
- Cancellation: when a stage fails, `try_join!` drops the others. In the model the later stages still consume what was sent before the failure, and the error of the earliest failing stage is returned.
- Failures of a channel `send` and of `cx.update` are not modelled; all sends succeed.
- The two-second timer of `chunks_timeout` is a parameter (`timerFires`), not a clock. Batches cut by the timer still respect the 4096 bound.
- BLAKE3 and hex encoding are an uninterpreted hash function; only the 64-character bound of the digest is kept.
- `Fs::load` and the join with the worktree root are folded into one loader parameter. Lossy UTF-8 conversion of paths is not modelled; paths are strings.
- heed/LMDB, bincode and transaction isolation are not modelled. Each table is a map, and every lookup can fail through a parameter. A write transaction is all-or-nothing.
- SummarizeFiles: the model registry is read once per run, while the source looks the model up again for every file (`summarize_code`, lines 455-457, called per file at line 426). So the model cannot produce a run where the model disappears partway through: a missing-model error after some files were forwarded, with any batch the timer had already closed staying committed. `SummarizeFiles` fails only on the first file, and `CompleteRunCommitsAll`'s "a run without the model commits nothing" relies on the registry staying fixed during a run. Likewise `digestReadFails`, `summaryReadFails` and `load` are functions of their key, digest or path. Two lookups of one key in a run therefore agree in the model, while in the source they are independent calls.
- The model registry and the completion provider are parameters. The request's `temperature: 1.0` field is left out (floating point). The provider is a function, so the model gives identical requests identical answers, while the real provider samples at temperature 1.0 and may answer differently each time.
- The source of `SummaryBacklog` is not part of this model. Its drain threshold is an abstract policy on the backlog contents, and its drain order is unspecified.
- `_entry_ids_being_indexed`, the accessors `file_digest_db`/`summary_db`, timing and logging have no effect on the tables.
- Deleting the records of removed files is unimplemented in the source, so `Removed` is a no-op.
- Two files with the same contents in one run are both summarized, because in the model the cache check of the second sees the tables before the persister ran. This follows from the model's sequential staging. In the source, `check_summary_cache` opens a fresh read transaction per file (lines 199-202 of `summary_index.rs`), which could see a batch that the concurrent persister committed meanwhile.
- The full scan takes `files` to be the snapshot's non-ignored file entries, as `worktree.files(false, 0)` yields them. The model does not consult their `isFile` flag there, and it does not model ignored entries.
