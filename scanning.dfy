/** The scanner's per-file decision: the table key of a path, the mtime test
    that puts a file into the backlog, and which changes of a delta scan reach
    that test at all. */
module Scanning {
  import opened SummaryTypes
  import opened Backlog

  /** The `file_digests` key the scanner looks a path up under: every '/'
      becomes a NUL character. */
  function DbKeyForPath(path: Path): (key: string)
    ensures |key| == |path|
    ensures forall i | 0 <= i < |path| :: key[i] == (if path[i] == '/' then '\0' else path[i])
    ensures '/' !in key
  {
    if path == [] then []
    else [if path[0] == '/' then '\0' else path[0]] + DbKeyForPath(path[1..])
  }

  /** The key is the path itself exactly when the path has no '/'. */
  lemma DbKeyIsPathIff(path: Path)
    ensures DbKeyForPath(path) == path <==> '/' !in path
  {
    if '/' in path {
      var i :| 0 <= i < |path| && path[i] == '/';
      assert DbKeyForPath(path)[i] != path[i];
    } else {
      assert forall i | 0 <= i < |path| :: DbKeyForPath(path)[i] == path[i];
    }
  }

  /** Two different strings can share a key: a '/' and a NUL are not told
      apart. No worktree path holds a NUL, so paths themselves never collide. */
  lemma DbKeyCollides()
    ensures "src/lib.rs" != "src\0lib.rs"
    ensures DbKeyForPath("src/lib.rs") == DbKeyForPath("src\0lib.rs")
  {
    assert "src/lib.rs"[3] != "src\0lib.rs"[3];
  }

  /** Paths without NUL characters (every path of a worktree) never share a key. */
  lemma DbKeyInjective(a: Path, b: Path)
    requires '\0' !in a && '\0' !in b
    requires DbKeyForPath(a) == DbKeyForPath(b)
    ensures a == b
  {
    var key := DbKeyForPath(a);
    forall i | 0 <= i < |a| ensures a[i] == b[i] {
      assert a[i] in a && b[i] in b;
      assert key[i] == (if a[i] == '/' then '\0' else a[i]);
      assert key[i] == (if b[i] == '/' then '\0' else b[i]);
    }
  }

  function Lookup(table: map<string, FileDigest>, key: string): Option<FileDigest>
  {
    if key in table then Some(table[key]) else None
  }

  /** The mtime remembered by a lookup result; an absent record counts as no mtime. */
  function SavedMtime(record: Option<FileDigest>): Option<Time>
  {
    match record
    case None => None
    case Some(d) => d.mtime
  }

  /** The change test of `add_to_backlog`: the entry's mtime differs from the remembered one. */
  predicate NeedsBacklog(entry: Entry, record: Option<FileDigest>)
  {
    entry.mtime != SavedMtime(record)
  }

  /** An unknown file is backlogged only when it has an mtime; a known file
      whenever its mtime changed, including to or from no mtime. */
  lemma NeedsBacklogCases(entry: Entry, record: Option<FileDigest>)
    ensures record.None? ==> (NeedsBacklog(entry, record) <==> entry.mtime.Some?)
    ensures record.Some? ==> (NeedsBacklog(entry, record) <==> entry.mtime != record.value.mtime)
  {
  }

  /** Whether `add_to_backlog` inserts `entry`: the lookup under its key
      succeeds and the change test holds. */
  predicate Selected(entry: Entry, table: map<string, FileDigest>, readFails: string -> bool)
  {
    var key := DbKeyForPath(entry.path);
    !readFails(key) && NeedsBacklog(entry, Lookup(table, key))
  }

  /** The effect of one `add_to_backlog` call on the backlog, from `before`
      to `after`, with the batch it returns. */
  ghost predicate BacklogStep(before: map<Path, BacklogValue>, entry: Entry, selected: bool,
                              policy: map<Path, BacklogValue> -> bool,
                              drained: seq<PathMtime>, after: map<Path, BacklogValue>)
  {
    if !selected then after == before && drained == []
    else
      var inserted := before[entry.path := (entry.size, entry.mtime)];
      if policy(inserted) then after == map[] && IsDrainOf(drained, inserted)
      else after == inserted && drained == []
  }

  /** The (path, mtime) pairs of the entries a scan selects. */
  function SelectedPairs(entries: seq<Entry>, table: map<string, FileDigest>, readFails: string -> bool): set<PathMtime>
    decreases |entries|
  {
    if entries == [] then {}
    else
      var e := entries[|entries| - 1];
      SelectedPairs(entries[..|entries| - 1], table, readFails)
        + (if Selected(e, table, readFails) then {(e.path, e.mtime)} else {})
  }

  lemma {:induction false} SelectedPairsMembership(entries: seq<Entry>, table: map<string, FileDigest>,
                                                   readFails: string -> bool, x: PathMtime)
    ensures x in SelectedPairs(entries, table, readFails)
            <==> exists e | e in entries :: Selected(e, table, readFails) && x == (e.path, e.mtime)
    decreases |entries|
  {
    if entries != [] {
      var init := entries[..|entries| - 1];
      SelectedPairsMembership(init, table, readFails, x);
      assert entries == init + [entries[|entries| - 1]];
    }
  }

  /** `x` is an entry of the starting backlog or a pair the scan selected. */
  ghost predicate FromOrigin(x: PathMtime, start: map<Path, BacklogValue>, pairs: set<PathMtime>)
  {
    (x.0 in start && start[x.0].1 == x.1) || x in pairs
  }

  /** The batches sent so far and the backlog `now` account exactly for the
      backlog `start` and the selected pairs: every batch is non-empty,
      nothing sent or pending comes from elsewhere, and every started or
      selected path is either still pending or was sent. */
  ghost predicate Accounted(start: map<Path, BacklogValue>, pairs: set<PathMtime>,
                            sent: seq<seq<PathMtime>>, now: map<Path, BacklogValue>)
  {
    && (forall b | b in sent :: b != [])
    && (forall x | x in Flatten(sent) :: FromOrigin(x, start, pairs))
    && (forall p | p in now :: FromOrigin((p, now[p].1), start, pairs))
    && (forall p | p in start :: p in now || p in PathsOf(Flatten(sent)))
    && (forall x | x in pairs :: x.0 in now || x.0 in PathsOf(Flatten(sent)))
  }

  lemma AccountedStart(start: map<Path, BacklogValue>)
    ensures Accounted(start, {}, [], start)
  {
  }

  /** One `add_to_backlog` call keeps the account, with the entry added to
      the selected pairs when it was selected and the drained batch sent
      when there was one. */
  lemma AccountedStep(start: map<Path, BacklogValue>, pairs: set<PathMtime>, sent: seq<seq<PathMtime>>,
                      now: map<Path, BacklogValue>, entry: Entry, selected: bool,
                      policy: map<Path, BacklogValue> -> bool, drained: seq<PathMtime>,
                      after: map<Path, BacklogValue>)
    requires Accounted(start, pairs, sent, now)
    requires BacklogStep(now, entry, selected, policy, drained, after)
    ensures Accounted(start, pairs + (if selected then {(entry.path, entry.mtime)} else {}),
                      if drained == [] then sent else sent + [drained], after)
  {
    var pairs' := pairs + (if selected then {(entry.path, entry.mtime)} else {});
    if selected {
      var inserted := now[entry.path := (entry.size, entry.mtime)];
      forall p | p in inserted ensures FromOrigin((p, inserted[p].1), start, pairs') {
      }
      if policy(inserted) {
        assert entry.path in PathsOf(drained);
        assert drained != [];
        var sent' := sent + [drained];
        FlattenAppend(sent, drained);
        PathsOfConcat(Flatten(sent), drained);
        forall x | x in drained ensures FromOrigin(x, start, pairs') {
          var i :| 0 <= i < |drained| && drained[i] == x;
          assert x.0 in inserted && x.1 == inserted[x.0].1;
        }
      }
    }
  }

  /** What a scan leaves behind: the backlog contents handed out at each
      drain, in order, and what is still pending at the end. */
  datatype ScanOutcome = ScanOutcome(drains: seq<map<Path, BacklogValue>>, pending: map<Path, BacklogValue>)

  /** One `add_to_backlog` call on the outcome so far: an entry that is not
      selected changes nothing; a selected one is inserted, and the backlog
      is drained right away when the policy asks for it. */
  function ScanAdd(o: ScanOutcome, entry: Entry, selected: bool, policy: map<Path, BacklogValue> -> bool): ScanOutcome
  {
    if !selected then o
    else
      var inserted := o.pending[entry.path := (entry.size, entry.mtime)];
      if policy(inserted) then ScanOutcome(o.drains + [inserted], map[]) else ScanOutcome(o.drains, inserted)
  }

  /** The outcome of a scan over `entries`, in order, from the backlog `start`. */
  function Scan(start: map<Path, BacklogValue>, entries: seq<Entry>, table: map<string, FileDigest>,
                readFails: string -> bool, policy: map<Path, BacklogValue> -> bool): ScanOutcome
    decreases |entries|
  {
    if entries == [] then ScanOutcome([], start)
    else
      var e := entries[|entries| - 1];
      ScanAdd(Scan(start, entries[..|entries| - 1], table, readFails, policy), e, Selected(e, table, readFails), policy)
  }

  /** Scanning one more entry is one more `ScanAdd`. */
  lemma ScanAppend(start: map<Path, BacklogValue>, entries: seq<Entry>, e: Entry, table: map<string, FileDigest>,
                   readFails: string -> bool, policy: map<Path, BacklogValue> -> bool)
    ensures Scan(start, entries + [e], table, readFails, policy)
            == ScanAdd(Scan(start, entries, table, readFails, policy), e, Selected(e, table, readFails), policy)
  {
    assert (entries + [e])[..|entries|] == entries;
  }

  /** The batches sent are the drains, one for one, each listing its backlog contents. */
  ghost predicate SentMatches(sent: seq<seq<PathMtime>>, drains: seq<map<Path, BacklogValue>>)
  {
    |sent| == |drains| && forall j | 0 <= j < |sent| :: IsDrainOf(sent[j], drains[j])
  }

  /** An `add_to_backlog` call that follows `BacklogStep` follows `ScanAdd`,
      and its batch is sent exactly when a drain happened. */
  lemma SentMatchesStep(o: ScanOutcome, entry: Entry, selected: bool, policy: map<Path, BacklogValue> -> bool,
                        sent: seq<seq<PathMtime>>, drained: seq<PathMtime>, after: map<Path, BacklogValue>)
    requires SentMatches(sent, o.drains)
    requires BacklogStep(o.pending, entry, selected, policy, drained, after)
    ensures after == ScanAdd(o, entry, selected, policy).pending
    ensures SentMatches(if drained == [] then sent else sent + [drained], ScanAdd(o, entry, selected, policy).drains)
  {
    if selected {
      var inserted := o.pending[entry.path := (entry.size, entry.mtime)];
      if policy(inserted) {
        assert entry.path in PathsOf(drained);
        assert drained != [];
      }
    }
  }

  /** Every drain of a scan happened because the policy asked for it, and
      handed out a non-empty backlog. */
  lemma {:induction false} ScanDrainsAsked(start: map<Path, BacklogValue>, entries: seq<Entry>,
                                           table: map<string, FileDigest>, readFails: string -> bool,
                                           policy: map<Path, BacklogValue> -> bool)
    ensures forall d | d in Scan(start, entries, table, readFails, policy).drains :: policy(d) && d != map[]
    decreases |entries|
  {
    if entries != [] {
      var e := entries[|entries| - 1];
      var o := Scan(start, entries[..|entries| - 1], table, readFails, policy);
      ScanDrainsAsked(start, entries[..|entries| - 1], table, readFails, policy);
      if Selected(e, table, readFails) {
        var inserted := o.pending[e.path := (e.size, e.mtime)];
        assert e.path in inserted;
      }
    }
  }

  /** A scan whose batches match its drains keeps the account: everything
      sent or still pending comes from the starting backlog or a selected
      entry, and every such path is pending or was sent. */
  lemma {:induction false} ScanAccounted(start: map<Path, BacklogValue>, entries: seq<Entry>,
                                         table: map<string, FileDigest>, readFails: string -> bool,
                                         policy: map<Path, BacklogValue> -> bool, sent: seq<seq<PathMtime>>)
    requires SentMatches(sent, Scan(start, entries, table, readFails, policy).drains)
    ensures Accounted(start, SelectedPairs(entries, table, readFails), sent, Scan(start, entries, table, readFails, policy).pending)
    decreases |entries|
  {
    if entries == [] {
      AccountedStart(start);
    } else {
      var init := entries[..|entries| - 1];
      var e := entries[|entries| - 1];
      var o := Scan(start, init, table, readFails, policy);
      var inserted := o.pending[e.path := (e.size, e.mtime)];
      if Selected(e, table, readFails) && policy(inserted) {
        var sentInit := sent[..|sent| - 1];
        assert SentMatches(sentInit, o.drains);
        ScanAccounted(start, init, table, readFails, policy, sentInit);
        ScanAccountedDrain(start, entries, table, readFails, policy, sentInit, sent[|sent| - 1]);
        assert sentInit + [sent[|sent| - 1]] == sent;
      } else {
        ScanAccounted(start, init, table, readFails, policy, sent);
        ScanAccountedKeep(start, entries, table, readFails, policy, sent);
      }
    }
  }

  /** The step of `ScanAccounted` where the last entry makes the backlog drain. */
  lemma ScanAccountedDrain(start: map<Path, BacklogValue>, entries: seq<Entry>,
                           table: map<string, FileDigest>, readFails: string -> bool,
                           policy: map<Path, BacklogValue> -> bool,
                           sentInit: seq<seq<PathMtime>>, drained: seq<PathMtime>)
    requires entries != []
    requires var e := entries[|entries| - 1];
             var o := Scan(start, entries[..|entries| - 1], table, readFails, policy);
             && Selected(e, table, readFails)
             && policy(o.pending[e.path := (e.size, e.mtime)])
             && IsDrainOf(drained, o.pending[e.path := (e.size, e.mtime)])
             && Accounted(start, SelectedPairs(entries[..|entries| - 1], table, readFails), sentInit, o.pending)
    ensures Accounted(start, SelectedPairs(entries, table, readFails), sentInit + [drained],
                      Scan(start, entries, table, readFails, policy).pending)
  {
    var init := entries[..|entries| - 1];
    var e := entries[|entries| - 1];
    var o := Scan(start, init, table, readFails, policy);
    assert e.path in PathsOf(drained);
    AccountedStep(start, SelectedPairs(init, table, readFails), sentInit, o.pending, e, true, policy,
                  drained, map[]);
  }

  /** The step of `ScanAccounted` where the backlog does not drain. */
  lemma ScanAccountedKeep(start: map<Path, BacklogValue>, entries: seq<Entry>,
                          table: map<string, FileDigest>, readFails: string -> bool,
                          policy: map<Path, BacklogValue> -> bool, sent: seq<seq<PathMtime>>)
    requires entries != []
    requires var e := entries[|entries| - 1];
             var o := Scan(start, entries[..|entries| - 1], table, readFails, policy);
             && !(Selected(e, table, readFails) && policy(o.pending[e.path := (e.size, e.mtime)]))
             && Accounted(start, SelectedPairs(entries[..|entries| - 1], table, readFails), sent, o.pending)
    ensures Accounted(start, SelectedPairs(entries, table, readFails), sent,
                      Scan(start, entries, table, readFails, policy).pending)
  {
    var init := entries[..|entries| - 1];
    var e := entries[|entries| - 1];
    var o := Scan(start, init, table, readFails, policy);
    var selected := Selected(e, table, readFails);
    AccountedStep(start, SelectedPairs(init, table, readFails), sent, o.pending, e, selected, policy,
                  [], ScanAdd(o, e, selected, policy).pending);
  }



  /** The change kinds of a delta scan. */
  datatype PathChange = Loaded | Added | Removed | Updated | AddedOrUpdated

  type EntryId = nat

  /** One element of the updated-entries set: a path, its entry id and what changed. */
  datatype PathUpdate = PathUpdate(path: Path, entryId: EntryId, change: PathChange)

  /** The snapshot entry a delta-scan update hands to `add_to_backlog`, if any. */
  function LiveFile(u: PathUpdate, snapshot: map<EntryId, Entry>): Option<Entry>
  {
    match u.change
    case Loaded | Added | Updated | AddedOrUpdated =>
      if u.entryId in snapshot && snapshot[u.entryId].isFile then Some(snapshot[u.entryId]) else None
    case Removed => None
  }

  /** The entries a delta scan hands to `add_to_backlog`, in update order. */
  function LiveFiles(updates: seq<PathUpdate>, snapshot: map<EntryId, Entry>): seq<Entry>
    decreases |updates|
  {
    if updates == [] then []
    else
      var init := LiveFiles(updates[..|updates| - 1], snapshot);
      match LiveFile(updates[|updates| - 1], snapshot)
      case None => init
      case Some(e) => init + [e]
  }

  /** One more update adds its live entry, if any, to the scanned entries. */
  lemma LiveFilesNext(updates: seq<PathUpdate>, snapshot: map<EntryId, Entry>, i: nat)
    requires i < |updates|
    ensures LiveFiles(updates[..i + 1], snapshot)
            == LiveFiles(updates[..i], snapshot)
               + (if LiveFile(updates[i], snapshot).Some? then [LiveFile(updates[i], snapshot).value] else [])
  {
    assert updates[..i + 1][..i] == updates[..i];
  }

  /** An entry is scanned iff some update that is not a removal names its id,
      the snapshot holds it, and it is a file. */
  lemma {:induction false} LiveFilesMembership(updates: seq<PathUpdate>, snapshot: map<EntryId, Entry>, e: Entry)
    ensures e in LiveFiles(updates, snapshot)
            <==> exists u | u in updates :: u.change != Removed && u.entryId in snapshot && snapshot[u.entryId] == e && e.isFile
    decreases |updates|
  {
    if updates != [] {
      var init := updates[..|updates| - 1];
      LiveFilesMembership(init, snapshot, e);
      assert updates == init + [updates[|updates| - 1]];
    }
  }
}
