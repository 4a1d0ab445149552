/** The summary cache check: a digested file goes on to the summarizer only
    when its digest has no summary yet. */
module CacheCheck {
  import opened SummaryTypes

  /** The files forwarded for `files`, in order: those whose `summaries`
      lookup succeeds and finds nothing. A failed lookup drops the file. */
  function CacheMisses(files: seq<UnsummarizedFile>, summaries: map<Digest, string>, readFails: Digest -> bool)
    : seq<UnsummarizedFile>
    decreases |files|
  {
    if files == [] then []
    else
      var init := CacheMisses(files[..|files| - 1], summaries, readFails);
      var f := files[|files| - 1];
      if !readFails(f.digest) && f.digest !in summaries then init + [f] else init
  }

  /** A file is forwarded iff it was digested, its lookup did not fail, and
      its digest is absent from the summary table. */
  lemma {:induction false} CacheMissesMembership(files: seq<UnsummarizedFile>, summaries: map<Digest, string>,
                                                 readFails: Digest -> bool, f: UnsummarizedFile)
    ensures f in CacheMisses(files, summaries, readFails)
            <==> f in files && !readFails(f.digest) && f.digest !in summaries
    decreases |files|
  {
    if files != [] {
      var init := files[..|files| - 1];
      CacheMissesMembership(init, summaries, readFails, f);
      assert files == init + [files[|files| - 1]];
    }
  }

  /** The forwarded files keep the order they arrived in. */
  lemma {:induction false} CacheMissesInOrder(files: seq<UnsummarizedFile>, summaries: map<Digest, string>,
                                              readFails: Digest -> bool)
    ensures IsSubsequence(CacheMisses(files, summaries, readFails), files)
    decreases |files|
  {
    if files != [] {
      CacheMissesInOrder(files[..|files| - 1], summaries, readFails);
    }
  }

  /** Forwarding is a prefix-respecting filter: checking more files only adds to the end. */
  lemma {:induction false} CacheMissesPrefix(files: seq<UnsummarizedFile>, summaries: map<Digest, string>,
                                             readFails: Digest -> bool, k: nat)
    requires k <= |files|
    ensures CacheMisses(files[..k], summaries, readFails) <= CacheMisses(files, summaries, readFails)
    decreases |files| - k
  {
    if k < |files| {
      CacheMissesPrefix(files, summaries, readFails, k + 1);
      assert files[..k + 1][..k] == files[..k];
    } else {
      assert files[..k] == files;
    }
  }
}
