/** The backlog of files waiting to be re-digested. Its source
    (crates/semantic_index/src/summary_backlog.rs) is not part of this model;
    only the contract the summary index relies on is: an upsert keyed by path,
    a drain threshold the index cannot see, and a drain that hands back every
    entry and empties the backlog. */
module Backlog {
  import opened SummaryTypes

  /** Size on disk and mtime recorded for a backlogged path. */
  type BacklogValue = (nat, Option<Time>)

  /** `drained` lists every entry of `m` exactly once, with its mtime, in some order. */
  ghost predicate IsDrainOf(drained: seq<PathMtime>, m: map<Path, BacklogValue>)
  {
    && PathsOf(drained) == m.Keys
    && (forall i | 0 <= i < |drained| :: drained[i].0 in m && drained[i].1 == m[drained[i].0].1)
    && (forall i, j | 0 <= i < j < |drained| :: drained[i].0 != drained[j].0)
  }

  lemma PathsOfAppend(s: seq<PathMtime>, x: PathMtime)
    ensures PathsOf(s + [x]) == PathsOf(s) + {x.0}
    ensures x.0 !in PathsOf(s) <==> forall i | 0 <= i < |s| :: s[i].0 != x.0
  {
    assert forall y | y in s + [x] :: y in s || y == x;
    if x.0 !in PathsOf(s) {
      forall i | 0 <= i < |s| ensures s[i].0 != x.0 {
        assert s[i] in s;
      }
    }
  }

  /** Lists the entries of `m`, one per path, in an unspecified order (the
      backlog is a hash map). */
  method ListEntries(m: map<Path, BacklogValue>) returns (drained: seq<PathMtime>)
    ensures IsDrainOf(drained, m)
  {
    drained := [];
    var todo := m.Keys;
    while todo != {}
      invariant todo <= m.Keys
      invariant PathsOf(drained) == m.Keys - todo
      invariant forall i | 0 <= i < |drained| :: drained[i].0 in m && drained[i].1 == m[drained[i].0].1
      invariant forall i, j | 0 <= i < j < |drained| :: drained[i].0 != drained[j].0
      decreases todo
    {
      var p :| p in todo;
      PathsOfAppend(drained, (p, m[p].1));
      drained := drained + [(p, m[p].1)];
      todo := todo - {p};
    }
  }

  class SummaryBacklog {
    /** The pending files, keyed by path. */
    var files: map<Path, BacklogValue>
    /** When the backlog asks to be drained; its thresholds are not modelled. */
    const needsDrainPolicy: map<Path, BacklogValue> -> bool

    constructor (needsDrainPolicy: map<Path, BacklogValue> -> bool)
      ensures files == map[]
      ensures this.needsDrainPolicy == needsDrainPolicy
    {
      files := map[];
      this.needsDrainPolicy := needsDrainPolicy;
    }

    /** Records `path` as pending, replacing any earlier entry for it. */
    method Insert(path: Path, size: nat, mtime: Option<Time>)
      modifies this
      ensures files == old(files)[path := (size, mtime)]
    {
      files := files[path := (size, mtime)];
    }

    predicate NeedsDrain()
      reads this
    {
      needsDrainPolicy(files)
    }

    /** Empties the backlog and returns what it held. */
    method Drain() returns (drained: seq<PathMtime>)
      modifies this
      ensures files == map[]
      ensures IsDrainOf(drained, old(files))
    {
      drained := ListEntries(files);
      files := map[];
    }
  }
}
