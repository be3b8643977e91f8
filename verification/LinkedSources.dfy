/** Rescanning a linked folder or file: which documents are new, changed, unchanged or missing. */
module LinkedSources {
  import opened Basics

  // A file's path; only its identity matters here.
  type Path = int

  // A point in time as stored; some databases drop the time zone.
  datatype Stamp = Aware(instant: int) | Naive(instant: int)

  datatype Processing = Queued | Processing | Ready | Error

  datatype SyncStatus = Synced | Missing | Unknown

  // A file found on disk, with its stat and whether it is an empty text file.
  datatype File = File(path: Path, size: int, modified: int, emptyText: bool)

  // A stored document; `extracted` stands for its content, summary and chunk count.
  datatype Doc = Doc(
    size: int,
    modifiedAt: Option<Stamp>,
    processing: Processing,
    sync: SyncStatus,
    lastSeen: Option<int>,
    extracted: Option<string>)

  datatype Outcome = Created | Updated | Unchanged | SkippedEmpty

  // A naive stamp is read as UTC.
  predicate SameModified(stored: Option<Stamp>, observed: int) {
    stored.Some? && stored.value.instant == observed
  }

  // The stat-only fast path: the file need not be opened.
  predicate MatchesStat(doc: Option<Doc>, f: File) {
    && doc.Some? && doc.value.processing != Error && doc.value.sync == Synced
    && doc.value.size == f.size && SameModified(doc.value.modifiedAt, f.modified)
  }

  function NewDoc(f: File, now: int): Doc {
    Doc(f.size, Some(Aware(f.modified)), Processing, Synced, Some(now), None)
  }

  // The slow path: sync one file with its document, queueing ingestion when something changed.
  function Synchronized(doc: Option<Doc>, f: File, now: int): (Doc, Outcome) {
    if doc.None? then (NewDoc(f, now), Created)
    else
      var d := doc.value;
      if d.size != f.size || !SameModified(d.modifiedAt, f.modified) || d.processing == Error || d.sync != Synced
      then (NewDoc(f, now), Updated)
      else (d.(sync := Synced, lastSeen := Some(now)), Unchanged)
  }

  function Scanned(doc: Option<Doc>, f: File, now: int): (Option<Doc>, Outcome) {
    if MatchesStat(doc, f) then (Some(doc.value.(lastSeen := Some(now))), Unchanged)
    else if f.emptyText then (doc, SkippedEmpty)
    else var (d, outcome) := Synchronized(doc, f, now); (Some(d), outcome)
  }

  /** The fast path is taken exactly when the slow path would have found nothing to do, and leaves the
      same document behind. */
  lemma FastPathAgrees(doc: Option<Doc>, f: File, now: int)
    ensures MatchesStat(doc, f) <==> doc.Some? && Synchronized(doc, f, now).1 == Unchanged
    ensures MatchesStat(doc, f) ==> Scanned(doc, f, now).0 == Some(Synchronized(doc, f, now).0)
  {
  }

  // Something about the document does not agree with the file.
  predicate IsOutOfDate(d: Doc, f: File) {
    || d.size != f.size || d.modifiedAt !in {Some(Aware(f.modified)), Some(Naive(f.modified))}
    || d.processing == Error || d.sync != Synced
  }

  /** What a scan does with one file: new and out-of-date documents are queued with what the file now
      shows, unless it is empty; any other document is only seen. */
  lemma OutcomeMeans(doc: Option<Doc>, f: File, now: int)
    ensures var (after, outcome) := Scanned(doc, f, now);
            && (outcome == Created <==> doc == None && !f.emptyText)
            && (outcome == Updated <==> doc.Some? && IsOutOfDate(doc.value, f) && !f.emptyText)
            && (outcome == SkippedEmpty <==> f.emptyText && (doc.Some? ==> IsOutOfDate(doc.value, f)))
            && (outcome in {Created, Updated} ==>
                  after == Some(Doc(f.size, Some(Aware(f.modified)), Processing, Synced, Some(now), None)))
            && (outcome == SkippedEmpty ==> after == doc)
            && (outcome == Unchanged ==> doc.Some? && after == Some(doc.value.(lastSeen := Some(now))))
  {
  }

  type Docs = map<Path, Doc>

  function Stored(docs: Docs, p: Path): Option<Doc> {
    if p in docs then Some(docs[p]) else None
  }

  ghost predicate DistinctPaths(files: seq<File>) {
    forall i, j | 0 <= i < j < |files| :: files[i].path != files[j].path
  }

  function Paths(files: seq<File>): set<Path> {
    set f | f in files :: f.path
  }

  // How many of the files have an outcome, given the documents before the scan.
  function CountOf(files: seq<File>, docs: Docs, now: int, o: Outcome): nat {
    if files == [] then 0
    else
      var f := files[|files| - 1];
      CountOf(files[..|files| - 1], docs, now, o) + if Scanned(Stored(docs, f.path), f, now).1 == o then 1 else 0
  }

  // The documents after a complete scan.
  ghost predicate IsRescan(files: seq<File>, docs: Docs, now: int, after: Docs) {
    && (forall i | 0 <= i < |files| :: Stored(after, files[i].path) == Scanned(Stored(docs, files[i].path), files[i], now).0)
    && (forall p | p in docs && p !in Paths(files) :: p in after && after[p] == docs[p].(sync := Missing))
    && forall p | p in after :: p in docs || p in Paths(files)
  }

  datatype Stats = Stats(created: nat, queued: nat, updated: nat, untouched: nat, missing: nat, skippedEmpty: nat, removed: nat)

  ghost predicate IsStats(files: seq<File>, docs: Docs, now: int, order: seq<Path>, s: Stats) {
    CountsSoFar(files, docs, now, s) && s.missing == Unseen(order, Paths(files))
  }

  /** Every file seen is counted once. */
  lemma {:induction false} CountsAddUp(files: seq<File>, docs: Docs, now: int)
    ensures CountOf(files, docs, now, Created) + CountOf(files, docs, now, Updated)
            + CountOf(files, docs, now, Unchanged) + CountOf(files, docs, now, SkippedEmpty) == |files|
  {
    if files != [] {
      CountsAddUp(files[..|files| - 1], docs, now);
    }
  }

  /** A document that had gone missing is queued again as soon as its file is back with content,
      even if size and time are the recorded ones. */
  lemma ReappearingIsQueued(d: Doc, f: File, now: int)
    requires d.sync != Synced
    ensures Scanned(Some(d), f, now).1 == (if f.emptyText then SkippedEmpty else Updated)
    ensures !f.emptyText ==> Scanned(Some(d), f, now).0 == Some(NewDoc(f, now))
  {
  }

  // What ingestion may do between two scans: anything but touch the stat and sync fields.
  ghost predicate Ingested(after: Docs, later: Docs) {
    && later.Keys == after.Keys
    && forall p | p in after ::
      later[p].size == after[p].size && later[p].modifiedAt == after[p].modifiedAt && later[p].sync == after[p].sync
  }

  // The file has content, and the ingestion of its document has failed.
  predicate FailedIngestion(doc: Option<Doc>, f: File) {
    doc.Some? && doc.value.processing == Error && !f.emptyText
  }

  function FailedCount(files: seq<File>, docs: Docs): nat {
    if files == [] then 0
    else
      var f := files[|files| - 1];
      FailedCount(files[..|files| - 1], docs) + if FailedIngestion(Stored(docs, f.path), f) then 1 else 0
  }

  /** Rescanning an unchanged tree queues exactly the documents whose ingestion failed in between, and
      so nothing if and only if none did. */
  lemma SecondRescanIsQuiet(files: seq<File>, docs: Docs, now: int, after: Docs, later: Docs, again: int)
    requires IsRescan(files, docs, now, after) && Ingested(after, later)
    ensures CountOf(files, later, again, Created) == 0 && CountOf(files, later, again, Updated) == FailedCount(files, later)
  {
    forall i | 0 <= i < |files| ensures QueuedIfFailed(files[i], later, again) {
      ScannedAgain(Stored(docs, files[i].path), files[i], now, Stored(after, files[i].path), Stored(later, files[i].path), again);
    }
    OnlyFailedCounted(files, later, again);
  }

  ghost predicate QueuedIfFailed(f: File, docs: Docs, now: int) {
    var outcome := Scanned(Stored(docs, f.path), f, now).1;
    outcome != Created && (outcome == Updated <==> FailedIngestion(Stored(docs, f.path), f))
  }

  lemma ScannedAgain(doc: Option<Doc>, f: File, now: int, after: Option<Doc>, later: Option<Doc>, again: int)
    requires after == Scanned(doc, f, now).0
    requires after.Some? <==> later.Some?
    requires after.Some? ==>
      && later.value.size == after.value.size && later.value.modifiedAt == after.value.modifiedAt
      && later.value.sync == after.value.sync
    ensures Scanned(later, f, again).1 != Created
    ensures Scanned(later, f, again).1 == Updated <==> FailedIngestion(later, f)
  {
  }

  lemma {:induction false} OnlyFailedCounted(files: seq<File>, docs: Docs, now: int)
    requires forall i | 0 <= i < |files| :: QueuedIfFailed(files[i], docs, now)
    ensures CountOf(files, docs, now, Created) == 0 && CountOf(files, docs, now, Updated) == FailedCount(files, docs)
  {
    if files != [] {
      OnlyFailedCounted(files[..|files| - 1], docs, now);
    }
  }

  // A file with content that the first scan did not see, or whose document has failed since.
  predicate QueuedAgain(f: File, seen: set<Path>, later: Docs) {
    !f.emptyText && (f.path in seen ==> FailedIngestion(Stored(later, f.path), f))
  }

  function QueuedAgainCount(files: seq<File>, seen: set<Path>, later: Docs): nat {
    if files == [] then 0
    else QueuedAgainCount(files[..|files| - 1], seen, later) + if QueuedAgain(files[|files| - 1], seen, later) then 1 else 0
  }

  /** When files that one scan missed are back at the next one, among files it saw, that one queues
      exactly the returning files with content and the documents whose ingestion failed in between,
      and no document is created twice. */
  lemma {:induction false} ReturningIsQueued(files: seq<File>, docs: Docs, now: int, after: Docs, later: Docs, second: seq<File>, again: int)
    requires IsRescan(files, docs, now, after) && Ingested(after, later)
    requires forall i | 0 <= i < |second| :: second[i] in files || (second[i].path in docs && second[i].path !in Paths(files))
    ensures CountOf(second, later, again, Created) == 0
    ensures CountOf(second, later, again, Updated) == QueuedAgainCount(second, Paths(files), later)
  {
    forall i | 0 <= i < |second| ensures QueuedRightly(second[i], Paths(files), later, again) {
      var f := second[i];
      if f in files {
        var k :| 0 <= k < |files| && files[k] == f;
        assert Stored(after, f.path) == Scanned(Stored(docs, f.path), f, now).0;
        ScannedAgain(Stored(docs, f.path), f, now, Stored(after, f.path), Stored(later, f.path), again);
      } else {
        ReappearingIsQueued(later[f.path], f, again);
      }
    }
    OnlyReturningCounted(second, Paths(files), later, again);
  }

  ghost predicate QueuedRightly(f: File, seen: set<Path>, docs: Docs, now: int) {
    var outcome := Scanned(Stored(docs, f.path), f, now).1;
    outcome != Created && (outcome == Updated <==> QueuedAgain(f, seen, docs))
  }

  lemma {:induction false} OnlyReturningCounted(files: seq<File>, seen: set<Path>, docs: Docs, now: int)
    requires forall i | 0 <= i < |files| :: QueuedRightly(files[i], seen, docs, now)
    ensures CountOf(files, docs, now, Created) == 0
    ensures CountOf(files, docs, now, Updated) == QueuedAgainCount(files, seen, docs)
  {
    if files != [] {
      OnlyReturningCounted(files[..|files| - 1], seen, docs, now);
    }
  }

  // --- The documents and the scan in the program's own form ---

  class Document {
    var size: int
    var modifiedAt: Option<Stamp>
    var processing: Processing
    var sync: SyncStatus
    var lastSeen: Option<int>
    var extracted: Option<string>

    constructor (f: File, now: int)
      ensures Value() == NewDoc(f, now)
    {
      size, modifiedAt, sync, lastSeen, extracted := f.size, Some(Aware(f.modified)), Synced, Some(now), None;
      processing := Processing;
    }

    function Value(): Doc
      reads this
    {
      Doc(size, modifiedAt, processing, sync, lastSeen, extracted)
    }

    method SyncWith(f: File, now: int) returns (outcome: Outcome)
      modifies this
      ensures (Value(), outcome) == Synchronized(Some(old(Value())), f, now)
    {
      var wasOutOfSync := sync != Synced;
      sync, lastSeen := Synced, Some(now);
      var changed := size != f.size || !SameModified(modifiedAt, f.modified) || processing == Error || wasOutOfSync;
      if !changed {
        return Unchanged;
      }
      size, modifiedAt := f.size, Some(Aware(f.modified));
      extracted := None;
      processing := Processing;
      outcome := Updated;
    }
  }

  type Existing = map<Path, Document>

  ghost predicate Unaliased(existing: Existing) {
    forall p, q | p in existing && q in existing && p != q :: existing[p] != existing[q]
  }

  function Values(existing: Existing): Docs
    reads existing.Values
  {
    map p | p in existing :: existing[p].Value()
  }

  datatype SourceStatus = ReadySource | MissingSource

  class LinkedSource {
    var syncStatus: SourceStatus
    var skippedEmptyCount: nat
    var lastScannedAt: int

    constructor ()
    {
      syncStatus, skippedEmptyCount, lastScannedAt := ReadySource, 0, 0;
    }

    // One file of the scan.
    method ScanFile(f: File, existing: Existing, now: int) returns (outcome: Outcome, created: Option<Document>)
      requires Unaliased(existing)
      modifies existing.Values
      ensures created.Some? ==> fresh(created.value)
      ensures FileScanned(f, now, old(Values(existing)), Values(existing), outcome,
                          if created.Some? then Some(created.value.Value()) else None)
    {
      created := None;
      if f.path in existing {
        var doc := existing[f.path];
        if MatchesStat(Some(doc.Value()), f) {
          doc.lastSeen := Some(now);
          return Unchanged, None;
        }
        if f.emptyText {
          return SkippedEmpty, None;
        }
        outcome := doc.SyncWith(f, now);
      } else {
        if f.emptyText {
          return SkippedEmpty, None;
        }
        var doc := new Document(f, now);
        return Created, Some(doc);
      }
    }

    // The scan's second loop: documents whose file was not seen, in the order they were loaded.
    method MarkUnseen(existing: Existing, order: seq<Path>, seen: set<Path>) returns (missing: nat)
      requires Unaliased(existing) && IsOrder(order, existing.Keys)
      modifies existing.Values
      ensures missing == Unseen(order, seen)
      ensures MarkedSoFar(order, old(Values(existing)), seen, Values(existing))
    {
      ghost var docs := Values(existing);
      missing := 0;
      for i := 0 to |order|
        invariant missing == Unseen(order[..i], seen)
        invariant MarkedSoFar(order[..i], docs, seen, Values(existing))
      {
        assert order[..i + 1][..i] == order[..i];
        if order[i] in seen {
          continue;
        }
        existing[order[i]].sync := Missing;
        missing := missing + 1;
      }
      assert order[..|order|] == order;
    }

    // One turn of the scan's first loop.
    method ScanNext(f: File, existing: Existing, added: Existing, now: int) returns (outcome: Outcome, more: Existing)
      requires Unaliased(existing) && added.Values !! existing.Values
      modifies existing.Values
      ensures fresh(more.Values - added.Values) && more.Values !! existing.Values
      ensures exists created ::
        && FileScanned(f, now, old(Values(existing)), Values(existing), outcome, created)
        && Values(more) == WithAdded(old(Values(added)), f.path, created)
    {
      ghost var before := Values(added);
      var created;
      outcome, created := ScanFile(f, existing, now);
      assert Values(added) == before;
      more := added;
      if created.Some? {
        more := added[f.path := created.value];
        assert Values(more) == before[f.path := created.value.Value()];
      }
    }

    // The scan's first loop: every file found on disk.
    method ScanFiles(files: seq<File>, existing: Existing, now: int) returns (stats: Stats, added: Existing)
      requires Unaliased(existing) && DistinctPaths(files)
      modifies existing.Values
      ensures fresh(added.Values)
      ensures ScannedSoFar(files, old(Values(existing)), now, Values(existing), Values(added))
      ensures CountsSoFar(files, old(Values(existing)), now, stats) && stats.missing == 0
    {
      ghost var docs := Values(existing);
      stats, added := Stats(0, 0, 0, 0, 0, 0, 0), map[];
      for i := 0 to |files|
        invariant fresh(added.Values) && added.Values !! existing.Values
        invariant ScannedSoFar(files[..i], docs, now, Values(existing), Values(added))
        invariant CountsSoFar(files[..i], docs, now, stats) && stats.missing == 0
      {
        ghost var before, more := Values(existing), Values(added);
        var outcome;
        outcome, added := ScanNext(files[i], existing, added, now);
        ghost var created :| FileScanned(files[i], now, before, Values(existing), outcome, created)
                             && Values(added) == WithAdded(more, files[i].path, created);
        ScannedMore(files, docs, now, i, before, more, Values(existing), outcome, created);
        CountsMore(files, docs, now, i, stats, outcome);
        stats := Counted(stats, outcome);
      }
      assert files[..|files|] == files;
    }

    // The root is gone: every document is marked, none is touched otherwise.
    method RootMissing(existing: Existing, order: seq<Path>, now: int) returns (stats: Stats)
      requires Unaliased(existing) && IsOrder(order, existing.Keys)
      modifies this, existing.Values
      ensures syncStatus == MissingSource && skippedEmptyCount == 0 && lastScannedAt == now
      ensures MarkedSoFar(order, old(Values(existing)), {}, Values(existing))
      ensures stats == Stats(0, 0, 0, 0, |order|, 0, 0)
    {
      syncStatus, skippedEmptyCount, lastScannedAt := MissingSource, 0, now;
      var missing := MarkUnseen(existing, order, {});
      NoneSeen(order);
      stats := Stats(0, 0, 0, 0, missing, 0, 0);
    }

    method ScanAndMark(files: seq<File>, existing: Existing, order: seq<Path>, now: int) returns (stats: Stats, added: Existing)
      requires Unaliased(existing) && IsOrder(order, existing.Keys) && DistinctPaths(files)
      modifies existing.Values
      ensures fresh(added.Values)
      ensures IsRescan(files, old(Values(existing)), now, Values(existing) + Values(added))
      ensures IsStats(files, old(Values(existing)), now, order, stats)
    {
      ghost var docs := Values(existing);
      stats, added := ScanFiles(files, existing, now);
      ghost var kept, created := Values(existing), Values(added);
      var missing := MarkUnseen(existing, order, Paths(files));
      assert Values(added) == created;
      RescanCombined(files, docs, now, order, kept, created, Values(existing));
      stats := stats.(missing := missing);
    }

    /** Rescan a linked folder; `order` lists the documents it has and `files` the supported files on disk. */
    method RescanFolder(available: bool, files: seq<File>, existing: Existing, order: seq<Path>, now: int)
      returns (stats: Stats, added: Existing)
      requires Unaliased(existing) && IsOrder(order, existing.Keys) && DistinctPaths(files)
      modifies this, existing.Values
      ensures fresh(added.Values) && lastScannedAt == now
      ensures available ==>
        && IsRescan(files, old(Values(existing)), now, Values(existing) + Values(added))
        && IsStats(files, old(Values(existing)), now, order, stats)
        && syncStatus == ReadySource && skippedEmptyCount == stats.skippedEmpty
      ensures !available ==>
        && added == map[] && stats == Stats(0, 0, 0, 0, |order|, 0, 0) && syncStatus == MissingSource
        && MarkedSoFar(order, old(Values(existing)), {}, Values(existing))
    {
      if !available {
        added := map[];
        stats := RootMissing(existing, order, now);
        return;
      }
      stats, added := ScanAndMark(files, existing, order, now);
      ghost var after := Values(existing) + Values(added);
      syncStatus, skippedEmptyCount, lastScannedAt := ReadySource, stats.skippedEmpty, now;
      assert Values(existing) + Values(added) == after;
    }

    /** Rescan a linked file. Its documents are all dropped when the file has become empty. */
    method RescanFile(root: Option<File>, existing: Existing, order: seq<Path>, now: int)
      returns (stats: Stats, added: Existing, dropped: bool)
      requires Unaliased(existing) && IsOrder(order, existing.Keys)
      modifies this, existing.Values
      ensures fresh(added.Values) && lastScannedAt == now
      ensures root.None? ==>
        && added == map[] && !dropped && stats == Stats(0, 0, 0, 0, |order|, 0, 0) && syncStatus == MissingSource
        && MarkedSoFar(order, old(Values(existing)), {}, Values(existing))
      ensures root.Some? ==>
        var outcome := Scanned(Stored(old(Values(existing)), root.value.path), root.value, now).1;
        && syncStatus == ReadySource && (dropped <==> outcome == SkippedEmpty)
        && skippedEmptyCount == stats.skippedEmpty
        && stats == Counted(Stats(0, 0, 0, 0, 0, 0, 0), outcome).(removed := if dropped then |order| else 0)
        && exists created ::
          && FileScanned(root.value, now, old(Values(existing)), Values(existing), outcome, created)
          && Values(added) == WithAdded(map[], root.value.path, created)
    {
      added, dropped := map[], false;
      if root.None? {
        stats := RootMissing(existing, order, now);
        return;
      }
      var outcome;
      outcome, added := ScanNext(root.value, existing, map[], now);
      stats := Counted(Stats(0, 0, 0, 0, 0, 0, 0), outcome);
      if outcome == SkippedEmpty {
        dropped, stats := true, stats.(removed := |order|);
      }
      syncStatus, skippedEmptyCount, lastScannedAt := ReadySource, stats.skippedEmpty, now;
    }
  }

  // What scanning one file does to the documents there are, and the document it may add.
  ghost predicate FileScanned(f: File, now: int, kept: Docs, kept': Docs, outcome: Outcome, created: Option<Doc>) {
    && outcome == Scanned(Stored(kept, f.path), f, now).1
    && kept'.Keys == kept.Keys && (forall p | p in kept && p != f.path :: kept'[p] == kept[p])
    && (if f.path in kept then created.None? && Some(kept'[f.path]) == Scanned(Some(kept[f.path]), f, now).0
        else created == Scanned(None, f, now).0)
  }

  function WithAdded(added: Docs, p: Path, created: Option<Doc>): Docs {
    if created.Some? then added[p := created.value] else added
  }

  // The keys of a dictionary in the order it yields them.
  ghost predicate IsOrder(order: seq<Path>, keys: set<Path>) {
    && (forall i, j | 0 <= i < j < |order| :: order[i] != order[j])
    && forall p :: p in keys <==> p in order
  }

  function Unseen(order: seq<Path>, seen: set<Path>): nat {
    if order == [] then 0
    else Unseen(order[..|order| - 1], seen) + if order[|order| - 1] in seen then 0 else 1
  }

  // Of the documents gone through, those whose file was not seen are marked as missing.
  ghost predicate MarkedSoFar(gone: seq<Path>, docs: Docs, seen: set<Path>, after: Docs) {
    after.Keys == docs.Keys
    && forall p | p in docs :: after[p] == if p in gone && p !in seen then docs[p].(sync := Missing) else docs[p]
  }

  function Counted(s: Stats, o: Outcome): Stats {
    match o
    case Created => s.(created := s.created + 1, queued := s.queued + 1)
    case Updated => s.(updated := s.updated + 1, queued := s.queued + 1)
    case Unchanged => s.(untouched := s.untouched + 1)
    case SkippedEmpty => s.(skippedEmpty := s.skippedEmpty + 1)
  }

  ghost predicate CountsSoFar(files: seq<File>, docs: Docs, now: int, s: Stats) {
    && s.created == CountOf(files, docs, now, Created) && s.updated == CountOf(files, docs, now, Updated)
    && s.untouched == CountOf(files, docs, now, Unchanged) && s.skippedEmpty == CountOf(files, docs, now, SkippedEmpty)
    && s.queued == s.created + s.updated && s.removed == 0
  }

  // Some files have been scanned: `kept` are the documents there were, `added` the new ones.
  ghost predicate ScannedSoFar(files: seq<File>, docs: Docs, now: int, kept: Docs, added: Docs) {
    && kept.Keys == docs.Keys
    && (forall i | 0 <= i < |files| ::
      Stored(if files[i].path in docs then kept else added, files[i].path) == Scanned(Stored(docs, files[i].path), files[i], now).0)
    && (forall p | p in docs && p !in Paths(files) :: kept[p] == docs[p])
    && forall p | p in added :: p in Paths(files) && p !in docs
  }

  lemma PathsMore(files: seq<File>, n: nat)
    requires n < |files| && DistinctPaths(files)
    ensures Paths(files[..n + 1]) == Paths(files[..n]) + {files[n].path} && files[n].path !in Paths(files[..n])
  {
    assert files[..n + 1] == files[..n] + [files[n]];
  }

  lemma CountsMore(files: seq<File>, docs: Docs, now: int, n: nat, s: Stats, o: Outcome)
    requires n < |files| && o == Scanned(Stored(docs, files[n].path), files[n], now).1
    requires CountsSoFar(files[..n], docs, now, s)
    ensures CountsSoFar(files[..n + 1], docs, now, Counted(s, o)) && Counted(s, o).missing == s.missing
  {
    assert files[..n + 1][..n] == files[..n];
  }

  lemma ScannedMore(
    files: seq<File>, docs: Docs, now: int, n: nat, kept: Docs, added: Docs, kept': Docs, outcome: Outcome, created: Option<Doc>)
    requires n < |files| && DistinctPaths(files) && ScannedSoFar(files[..n], docs, now, kept, added)
    requires FileScanned(files[n], now, kept, kept', outcome, created)
    ensures ScannedSoFar(files[..n + 1], docs, now, kept', WithAdded(added, files[n].path, created))
    ensures outcome == Scanned(Stored(docs, files[n].path), files[n], now).1
  {
    var f, added' := files[n], WithAdded(added, files[n].path, created);
    PathsMore(files, n);
    assert Stored(kept, f.path) == Stored(docs, f.path);
    forall i | 0 <= i < n ensures Stored(if files[i].path in docs then kept' else added', files[i].path)
                                  == Scanned(Stored(docs, files[i].path), files[i], now).0 {
      assert files[..n][i] == files[i];
      assert files[i].path != f.path;
    }
  }

  lemma {:induction false} NoneSeen(order: seq<Path>)
    ensures Unseen(order, {}) == |order|
  {
    if order != [] {
      NoneSeen(order[..|order| - 1]);
    }
  }

  // The two loops together make a rescan.
  lemma RescanCombined(files: seq<File>, docs: Docs, now: int, order: seq<Path>, kept: Docs, added: Docs, marked: Docs)
    requires ScannedSoFar(files, docs, now, kept, added) && IsOrder(order, docs.Keys)
    requires MarkedSoFar(order, kept, Paths(files), marked)
    ensures IsRescan(files, docs, now, marked + added)
  {
    var after := marked + added;
    forall i | 0 <= i < |files| ensures Stored(after, files[i].path) == Scanned(Stored(docs, files[i].path), files[i], now).0 {
      assert files[i] in files && files[i].path in Paths(files);
    }
  }

  /** What a rescan reports: every file is counted once, queued are the new and the changed ones, and
      missing is the number of documents whose file was not seen. */
  lemma StatsAddUp(files: seq<File>, docs: Docs, now: int, order: seq<Path>, s: Stats)
    requires IsStats(files, docs, now, order, s) && IsOrder(order, docs.Keys)
    ensures s.created + s.updated + s.untouched + s.skippedEmpty == |files| && s.queued == s.created + s.updated
    ensures s.missing == |docs.Keys - Paths(files)|
  {
    CountsAddUp(files, docs, now);
    UnseenSize(order, Paths(files));
    assert (set p | p in order && p !in Paths(files)) == docs.Keys - Paths(files);
  }

  lemma {:induction false} UnseenSize(order: seq<Path>, seen: set<Path>)
    requires forall i, j | 0 <= i < j < |order| :: order[i] != order[j]
    ensures |set p | p in order && p !in seen| == Unseen(order, seen)
  {
    if order == [] {
      assert (set p | p in order && p !in seen) == {};
    } else {
      var n := |order| - 1;
      UnseenSize(order[..n], seen);
      UnseenSetMore(order[..n], order[n], seen);
      assert order == order[..n] + [order[n]];
    }
  }

  lemma UnseenSetMore(order: seq<Path>, p: Path, seen: set<Path>)
    ensures (set q | q in order + [p] && q !in seen) == (set q | q in order && q !in seen) + if p in seen then {} else {p}
  {
  }
}
