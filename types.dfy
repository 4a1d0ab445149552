/** Vocabulary shared by every stage of the summary index: paths, mtimes,
    content digests, the records of the two tables and the files that flow
    from one pipeline stage to the next. */
module SummaryTypes {

  datatype Option<+T> = None | Some(value: T)

  /** A worktree-relative path, as UTF-8 text. */
  type Path = string

  /** A file-system timestamp. The index only ever compares two of them for equality. */
  type Time = int

  /** Capacity of the digest string: twice the 32-byte BLAKE3 output, in hex. */
  const DigestCapacity := 64

  /** The hex text of a content hash, held in a fixed-capacity string. */
  type Digest = s: string | |s| <= DigestCapacity

  /** A file of the worktree snapshot as the scanner sees it. */
  datatype Entry = Entry(path: Path, size: nat, mtime: Option<Time>, isFile: bool)

  /** A value of the `file_digests` table. */
  datatype FileDigest = FileDigest(mtime: Option<Time>, digest: Digest)

  /** A loaded and hashed file on its way to the summary cache check. */
  datatype UnsummarizedFile = UnsummarizedFile(path: Path, mtime: Option<Time>, digest: Digest, contents: string)

  /** A file whose contents were summarized, on its way to the persister. */
  datatype SummarizedFile = SummarizedFile(path: string, mtime: Option<Time>, digest: Digest, summary: string)

  /** What the backlog hands to the digester for one file. */
  type PathMtime = (Path, Option<Time>)

  /** The errors that end a stage task (and with it the whole indexing run). */
  datatype PipelineError = ReadTxnFailed | WriteTxnFailed | PutFailed | CommitFailed | ModelNotFound

  datatype Result<+T> = Ok(value: T) | Err(error: PipelineError)

  /** What a stage task pushed into its output channel before it finished,
      and the error it finished with, if any. */
  datatype StageResult<T> = StageResult(sent: seq<T>, error: Option<PipelineError>)

  /** The concatenation of a sequence of batches. */
  function Flatten<T>(s: seq<seq<T>>): seq<T>
  {
    if s == [] then [] else s[0] + Flatten(s[1..])
  }

  lemma {:induction false} FlattenConcat<T>(a: seq<seq<T>>, b: seq<seq<T>>)
    ensures Flatten(a + b) == Flatten(a) + Flatten(b)
  {
    if a == [] {
      assert a + b == b;
    } else {
      assert (a + b)[0] == a[0];
      assert (a + b)[1..] == a[1..] + b;
      FlattenConcat(a[1..], b);
    }
  }

  lemma FlattenAppend<T>(s: seq<seq<T>>, t: seq<T>)
    ensures Flatten(s + [t]) == Flatten(s) + t
  {
    FlattenConcat(s, [t]);
    assert Flatten([t]) == t + Flatten([t][1..]);
  }

  /** The set of paths mentioned by a sequence of (path, mtime) pairs. */
  function PathsOf(s: seq<PathMtime>): set<Path>
  {
    set x | x in s :: x.0
  }

  lemma PathsOfConcat(a: seq<PathMtime>, b: seq<PathMtime>)
    ensures PathsOf(a + b) == PathsOf(a) + PathsOf(b)
  {
    assert forall x | x in a + b :: x in a || x in b;
  }

  /** `a` is `b` with some elements left out and the rest kept in order:
      the last element of `b` either is the last element of `a` or is left out. */
  predicate IsSubsequence<T(==)>(a: seq<T>, b: seq<T>)
    decreases |b|
  {
    if b == [] then a == []
    else
      || (a != [] && a[|a| - 1] == b[|b| - 1] && IsSubsequence(a[..|a| - 1], b[..|b| - 1]))
      || IsSubsequence(a, b[..|b| - 1])
  }

  /** The first index in `from..n` at which `ok` is false, or `n` when there is none. */
  function FirstFailure(ok: nat -> bool, from: nat, n: nat): (k: nat)
    requires from <= n
    ensures from <= k <= n
    ensures forall i | from <= i < k :: ok(i)
    ensures k < n ==> !ok(k)
    decreases n - from
  {
    if from == n || !ok(from) then from else FirstFailure(ok, from + 1, n)
  }

  /** No step of `from..n` fails exactly when the search reaches `n`. */
  lemma FirstFailureReachesEnd(ok: nat -> bool, from: nat, n: nat)
    requires from <= n
    ensures FirstFailure(ok, from, n) == n <==> forall i | from <= i < n :: ok(i)
  {
    var k := FirstFailure(ok, from, n);
    if k < n {
      assert !ok(k);
    }
  }
}
