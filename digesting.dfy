/** The digester: every backlogged (path, mtime) whose contents load becomes an
    `UnsummarizedFile` carrying the hash of those contents; a file that fails
    to load is dropped. */
module Digesting {
  import opened SummaryTypes

  /** The files the digester emits for `pairs`, in order. `load` stands for
      reading the file under the worktree root, `hash` for BLAKE3 followed by
      hex encoding. */
  function Digested(pairs: seq<PathMtime>, load: Path -> Option<string>, hash: string -> Digest): seq<UnsummarizedFile>
    decreases |pairs|
  {
    if pairs == [] then []
    else
      var init := Digested(pairs[..|pairs| - 1], load, hash);
      var (path, mtime) := pairs[|pairs| - 1];
      match load(path)
      case None => init
      case Some(contents) => init + [UnsummarizedFile(path, mtime, hash(contents), contents)]
  }

  /** A file is emitted iff its (path, mtime) was handed to the digester, its
      contents loaded, and its digest is the hash of those contents. */
  lemma {:induction false} DigestedMembership(pairs: seq<PathMtime>, load: Path -> Option<string>,
                                              hash: string -> Digest, f: UnsummarizedFile)
    ensures f in Digested(pairs, load, hash)
            <==> (f.path, f.mtime) in pairs && load(f.path) == Some(f.contents) && f.digest == hash(f.contents)
    decreases |pairs|
  {
    if pairs != [] {
      var init := pairs[..|pairs| - 1];
      var last := pairs[|pairs| - 1];
      DigestedMembership(init, load, hash, f);
      assert pairs == init + [last];
      assert (f.path, f.mtime) in pairs <==> (f.path, f.mtime) in init || (f.path, f.mtime) == last;
      match load(last.0)
      case None =>
        assert Digested(pairs, load, hash) == Digested(init, load, hash);
      case Some(contents) =>
        var g := UnsummarizedFile(last.0, last.1, hash(contents), contents);
        assert Digested(pairs, load, hash) == Digested(init, load, hash) + [g];
        assert f == g <==> (f.path, f.mtime) == last && load(f.path) == Some(f.contents) && f.digest == hash(f.contents);
    }
  }

  /** The digester never emits more files than it was handed. */
  lemma {:induction false} DigestedLength(pairs: seq<PathMtime>, load: Path -> Option<string>, hash: string -> Digest)
    ensures |Digested(pairs, load, hash)| <= |pairs|
    decreases |pairs|
  {
    if pairs != [] {
      DigestedLength(pairs[..|pairs| - 1], load, hash);
    }
  }

  /** Two emitted files with the same contents carry the same digest, whatever their paths. */
  lemma SameContentsSameDigest(pairs: seq<PathMtime>, load: Path -> Option<string>, hash: string -> Digest,
                               f: UnsummarizedFile, g: UnsummarizedFile)
    requires f in Digested(pairs, load, hash) && g in Digested(pairs, load, hash)
    requires f.contents == g.contents
    ensures f.digest == g.digest
  {
    DigestedMembership(pairs, load, hash, f);
    DigestedMembership(pairs, load, hash, g);
  }

  /** The digester, run as one sequential worker over the batches the scanner sent. */
  method DigestFiles(batches: seq<seq<PathMtime>>, load: Path -> Option<string>, hash: string -> Digest)
    returns (files: seq<UnsummarizedFile>)
    ensures files == Digested(Flatten(batches), load, hash)
  {
    files := [];
    for b := 0 to |batches|
      invariant files == Digested(Flatten(batches[..b]), load, hash)
    {
      var pairs := batches[b];
      assert Flatten(batches[..b]) + pairs[..0] == Flatten(batches[..b]);
      for i := 0 to |pairs|
        invariant files == Digested(Flatten(batches[..b]) + pairs[..i], load, hash)
      {
        var (path, mtime) := pairs[i];
        assert Flatten(batches[..b]) + pairs[..i + 1] == (Flatten(batches[..b]) + pairs[..i]) + [pairs[i]];
        var loaded := load(path);
        if loaded.Some? {
          var contents := loaded.value;
          files := files + [UnsummarizedFile(path, mtime, hash(contents), contents)];
        }
      }
      assert batches[..b + 1] == batches[..b] + [pairs];
      FlattenAppend(batches[..b], pairs);
      assert pairs[..|pairs|] == pairs;
    }
    assert batches[..|batches|] == batches;
  }
}
