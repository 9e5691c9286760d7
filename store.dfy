/**
  The queue store of db.ts: one MongoDB collection of video rows, modelled as an
  in-memory sequence of rows. Each exported operation of db.ts completes atomically
  here; connecting, closing and the promise plumbing are not modelled.
*/
module Store {
  import opened Seqs

  /** The `_id` MongoDB gives a row when it is inserted. */
  type RowId = nat

  /** A timestamp (`Date`) as milliseconds. */
  type Date = int

  /** `VideoDBEntry`: what callers insert. An absent optional field is `None`. */
  datatype Entry = Entry(
    videoCode: string,
    dateQueued: Date,
    failedDownload: Option<bool>,
    completedDownload: Option<bool>,
    dateCompleted: Option<Date>,
    messageLogs: Option<string>,
    errorMessageLogs: Option<string>,
    priority: int)

  /**
    `VideoDBRow`: a stored document. `isDownloading` and `isRetrying` are set by the
    two mark operations and read by the two queries, although the interface omits them.
  */
  datatype Row = Row(
    id: RowId,
    videoCode: string,
    dateQueued: Date,
    failedDownload: Option<bool>,
    completedDownload: Option<bool>,
    dateCompleted: Option<Date>,
    messageLogs: Option<string>,
    errorMessageLogs: Option<string>,
    priority: int,
    isDownloading: Option<bool>,
    isRetrying: Option<bool>)

  /** `VideoDBUpdate`: the outcome fields written back for one row. */
  datatype Update = Update(
    failedDownload: Option<bool>,
    completedDownload: Option<bool>,
    dateCompleted: Option<Date>,
    messageLogs: Option<string>,
    errorMessageLogs: Option<string>)

  /** The row an inserted entry becomes: its fields, a new `_id`, and no progress flags. */
  function FromEntry(e: Entry, id: RowId): (row: Row)
    ensures row.id == id && row.isDownloading == None && row.isRetrying == None
    ensures row.videoCode == e.videoCode && row.dateQueued == e.dateQueued && row.priority == e.priority
    ensures row.failedDownload == e.failedDownload && row.completedDownload == e.completedDownload
    ensures row.dateCompleted == e.dateCompleted
    ensures row.messageLogs == e.messageLogs && row.errorMessageLogs == e.errorMessageLogs
  {
    Row(id, e.videoCode, e.dateQueued, e.failedDownload, e.completedDownload, e.dateCompleted,
        e.messageLogs, e.errorMessageLogs, e.priority, None, None)
  }

  function FromEntries(entries: seq<Entry>, firstId: RowId): (r: seq<Row>)
  {
    seq(|entries|, i requires 0 <= i < |entries| => FromEntry(entries[i], firstId + i))
  }

  /** The selector `{ $ne: true }` fails exactly on this: a field that is present and true. */
  predicate IsTrue(f: Option<bool>)
  {
    f == Some(true)
  }

  /** The two selection queries of db.ts. */
  datatype Query = NewItems | IncompleteItems

  /** The `find` filter of each query. */
  predicate Matches(q: Query, row: Row)
    ensures Matches(q, row) ==> !IsTrue(row.completedDownload) && !IsTrue(row.isRetrying)
    ensures Matches(q, row) ==> (IsTrue(row.isDownloading) <==> q == IncompleteItems)
    ensures q == NewItems && Matches(q, row) ==> !IsTrue(row.failedDownload)
  {
    match q
    case NewItems =>
      !IsTrue(row.completedDownload) && !IsTrue(row.failedDownload) &&
      !IsTrue(row.isDownloading) && !IsTrue(row.isRetrying)
    case IncompleteItems =>
      !IsTrue(row.completedDownload) && !IsTrue(row.isRetrying) && IsTrue(row.isDownloading)
  }

  function Matching(rows: seq<Row>, q: Query): seq<Row>
  {
    Filter(rows, (row: Row) => Matches(q, row))
  }

  /** The sort specification `{ priority: 1, dateQueued: 1 }`: priority ascending, then date ascending. */
  predicate KeyLe(a: Row, b: Row)
  {
    a.priority < b.priority || (a.priority == b.priority && a.dateQueued <= b.dateQueued)
  }

  ghost predicate Sorted(s: seq<Row>)
  {
    forall i, j :: 0 <= i < j < |s| ==> KeyLe(s[i], s[j])
  }

  function InsertByKey(x: Row, s: seq<Row>): (r: seq<Row>)
    requires Sorted(s)
    ensures Sorted(r)
    ensures multiset(r) == multiset(s) + multiset{x}
  {
    if s == [] || KeyLe(x, s[0]) then
      [x] + s
    else
      var rest := InsertByKey(x, s[1..]);
      assert s == [s[0]] + s[1..];
      HeadBelowInserted(s, x, rest);
      ConsSorted(s[0], rest);
      [s[0]] + rest
  }

  /** When `x` goes after the head, the head stays below everything in the rest. */
  lemma HeadBelowInserted(s: seq<Row>, x: Row, rest: seq<Row>)
    requires Sorted(s) && s != [] && !KeyLe(x, s[0])
    requires multiset(rest) == multiset(s[1..]) + multiset{x}
    ensures forall k :: 0 <= k < |rest| ==> KeyLe(s[0], rest[k])
  {
    forall k | 0 <= k < |rest|
      ensures KeyLe(s[0], rest[k])
    {
      assert rest[k] in multiset(rest);
      if rest[k] != x {
        assert rest[k] in multiset(s[1..]);
        var j :| 0 <= j < |s[1..]| && s[1..][j] == rest[k];
        assert s[1 + j] == rest[k];
      }
    }
  }

  lemma ConsSorted(h: Row, t: seq<Row>)
    requires Sorted(t)
    requires forall k :: 0 <= k < |t| ==> KeyLe(h, t[k])
    ensures Sorted([h] + t)
  {
    var s := [h] + t;
    forall i, j | 0 <= i < j < |s|
      ensures KeyLe(s[i], s[j])
    {
      if i == 0 {
        assert s[j] == t[j - 1];
      } else {
        assert s[i] == t[i - 1] && s[j] == t[j - 1];
      }
    }
  }

  /**
    The order the server returns matching rows in. Rows with equal keys keep their
    stored order here; MongoDB leaves the order of ties unspecified, and nothing
    below depends on it.
  */
  function SortByKey(s: seq<Row>): (r: seq<Row>)
    ensures Sorted(r)
    ensures multiset(r) == multiset(s)
  {
    if s == [] then []
    else
      assert s == [s[0]] + s[1..];
      InsertByKey(s[0], SortByKey(s[1..]))
  }

  /** How many rows `limit(n)` lets through out of `available`: 0 means no limit, a negative n means |n|. */
  function LimitCount(available: nat, n: int): (k: nat)
    ensures k <= available
    ensures n != 0 && (if n < 0 then -n else n) <= available ==> k == (if n < 0 then -n else n)
    ensures n == 0 || (if n < 0 then -n else n) >= available ==> k == available
  {
    var m := if n < 0 then -n else n;
    if n == 0 || m >= available then available else m
  }

  /**
    `find(filter).limit(n).sort(key)`: the server sorts before it limits, whatever
    the order of the calls, so the result is the first rows of the sorted matches.
  */
  function Find(rows: seq<Row>, q: Query, desiredCount: int): (r: seq<Row>)
    ensures forall i :: 0 <= i < |r| ==> Matches(q, r[i])
    ensures multiset(r) <= multiset(rows)
    ensures Sorted(r)
    ensures |r| == LimitCount(|Matching(rows, q)|, desiredCount)
    ensures forall x, y :: x in r && y in multiset(Matching(rows, q)) - multiset(r) ==> KeyLe(x, y)
    ensures |r| == |Matching(rows, q)| ==> multiset(r) == multiset(Matching(rows, q))
  {
    var sorted := SortByKey(Matching(rows, q));
    var k := LimitCount(|sorted|, desiredCount);
    SortedPrefixIsSmallest(sorted, k);
    SelectedRowsMatch(rows, q, sorted[..k]);
    sorted[..k]
  }

  /** Rows drawn from the matches of a query match it and come from the collection. */
  lemma SelectedRowsMatch(rows: seq<Row>, q: Query, r: seq<Row>)
    requires multiset(r) <= multiset(Matching(rows, q))
    ensures forall i :: 0 <= i < |r| ==> Matches(q, r[i])
    ensures multiset(r) <= multiset(rows)
  {
    var matching := Matching(rows, q);
    forall i | 0 <= i < |r|
      ensures Matches(q, r[i])
    {
      assert r[i] in multiset(r);
      var j :| 0 <= j < |matching| && matching[j] == r[i];
    }
  }

  /** In a sorted sequence the first k elements are at most every element left over. */
  lemma SortedPrefixIsSmallest(s: seq<Row>, k: nat)
    requires Sorted(s) && k <= |s|
    ensures multiset(s[..k]) <= multiset(s)
    ensures multiset(s) - multiset(s[..k]) == multiset(s[k..])
    ensures forall x, y :: x in s[..k] && y in multiset(s[k..]) ==> KeyLe(x, y)
  {
    assert s == s[..k] + s[k..];
    forall x, y | x in s[..k] && y in multiset(s[k..])
      ensures KeyLe(x, y)
    {
      var i :| 0 <= i < k && s[i] == x;
      assert y in s[k..];
      var j :| k <= j < |s| && s[j] == y;
    }
  }

  /** `getVideoCodesFromDB`: rows that are neither finished nor claimed by a download or a retry. */
  function GetVideoCodes(rows: seq<Row>, desiredCount: int): (r: seq<Row>)
    ensures forall i :: 0 <= i < |r| ==>
      !IsTrue(r[i].completedDownload) && !IsTrue(r[i].failedDownload) &&
      !IsTrue(r[i].isDownloading) && !IsTrue(r[i].isRetrying)
    ensures multiset(r) <= multiset(rows)
  {
    Find(rows, NewItems, desiredCount)
  }

  /** `getVideoIncompleteCodesFromDB`: rows marked as downloading that are neither completed nor being retried. */
  function GetVideoIncompleteCodes(rows: seq<Row>, desiredCount: int): (r: seq<Row>)
    ensures forall i :: 0 <= i < |r| ==>
      IsTrue(r[i].isDownloading) && !IsTrue(r[i].completedDownload) && !IsTrue(r[i].isRetrying)
    ensures multiset(r) <= multiset(rows)
  {
    Find(rows, IncompleteItems, desiredCount)
  }

  /** No row can be selected by both queries: one excludes `isDownloading`, the other requires it. */
  lemma QueriesAreDisjoint(rows: seq<Row>, n: int, m: int)
    ensures forall x :: x in GetVideoCodes(rows, n) ==> x !in GetVideoIncompleteCodes(rows, m)
  {
  }

  /**
    `failedDownload` is not part of the incomplete-items filter: a row marked failed
    that still carries `isDownloading` is selected again by an unlimited query.
  */
  lemma {:induction false} FailedDownloadIsReselected(rows: seq<Row>, row: Row)
    requires row in rows
    requires IsTrue(row.failedDownload) && IsTrue(row.isDownloading)
    requires !IsTrue(row.completedDownload) && !IsTrue(row.isRetrying)
    ensures row in GetVideoIncompleteCodes(rows, 0)
  {
    var r := Find(rows, IncompleteItems, 0);
    var i :| 0 <= i < |rows| && rows[i] == row;
    assert Matches(IncompleteItems, rows[i]);
    assert row in multiset(Matching(rows, IncompleteItems));
  }

  /** The flag each mark operation sets. */
  datatype Flag = Downloading | Retrying

  function Flagged(row: Row, f: Flag): Row
  {
    match f
    case Downloading => row.(isDownloading := Some(true))
    case Retrying => row.(isRetrying := Some(true))
  }

  /** `$set` of the flag on every row whose `_id` is listed; every other row as it was. */
  function SetFlag(rows: seq<Row>, ids: set<RowId>, f: Flag): (r: seq<Row>)
    ensures |r| == |rows|
    ensures forall i :: 0 <= i < |rows| && rows[i].id !in ids ==> r[i] == rows[i]
    ensures forall i :: 0 <= i < |rows| && rows[i].id in ids ==>
      (match f
       case Downloading => IsTrue(r[i].isDownloading) && r[i].isRetrying == rows[i].isRetrying
       case Retrying => IsTrue(r[i].isRetrying) && r[i].isDownloading == rows[i].isDownloading) &&
      r[i].(isDownloading := rows[i].isDownloading, isRetrying := rows[i].isRetrying) == rows[i]
  {
    seq(|rows|, i requires 0 <= i < |rows| => if rows[i].id in ids then Flagged(rows[i], f) else rows[i])
  }

  function IdsOf(rows: seq<Row>): set<RowId>
  {
    set i | 0 <= i < |rows| :: rows[i].id
  }

  /** Marking in two rounds is marking the union once. */
  lemma SetFlagTwice(rows: seq<Row>, a: set<RowId>, b: set<RowId>, f: Flag)
    ensures SetFlag(SetFlag(rows, a, f), b, f) == SetFlag(rows, a + b, f)
  {
  }

  /** Every row of a marked collection whose `_id` was listed carries the flag. */
  lemma FlagIsSet(rows: seq<Row>, ids: set<RowId>, f: Flag, x: Row)
    requires x in SetFlag(rows, ids, f) && x.id in ids
    ensures match f
      case Downloading => IsTrue(x.isDownloading)
      case Retrying => IsTrue(x.isRetrying)
  {
  }

  /** After marking rows as being downloaded, the new-items query never returns them. */
  lemma {:induction false} MarkedDownloadsLeaveNewItems(rows: seq<Row>, ids: set<RowId>, n: int)
    ensures forall x :: x in GetVideoCodes(SetFlag(rows, ids, Downloading), n) ==> x.id !in ids
  {
    var marked := SetFlag(rows, ids, Downloading);
    forall x | x in GetVideoCodes(marked, n)
      ensures x.id !in ids
    {
      assert x in multiset(marked);
      if x.id in ids {
        FlagIsSet(rows, ids, Downloading, x);
      }
    }
  }

  /**
    Marking a row as being downloaded puts it into the incomplete-items query
    unless it is completed or being retried.
  */
  lemma MarkedDownloadsEnterIncomplete(rows: seq<Row>, ids: set<RowId>, i: nat)
    requires i < |rows| && rows[i].id in ids
    requires !IsTrue(rows[i].completedDownload) && !IsTrue(rows[i].isRetrying)
    ensures i < |SetFlag(rows, ids, Downloading)|
    ensures SetFlag(rows, ids, Downloading)[i] in GetVideoIncompleteCodes(SetFlag(rows, ids, Downloading), 0)
  {
    var marked := SetFlag(rows, ids, Downloading);
    assert Matches(IncompleteItems, marked[i]);
    assert marked[i] in Matching(marked, IncompleteItems);
    assert marked[i] in multiset(Matching(marked, IncompleteItems));
  }

  /** After marking rows as being retried, neither query returns them. */
  lemma {:induction false} MarkedRetriesLeaveBothQueries(rows: seq<Row>, ids: set<RowId>, n: int, m: int)
    ensures forall x :: x in GetVideoCodes(SetFlag(rows, ids, Retrying), n) ==> x.id !in ids
    ensures forall x :: x in GetVideoIncompleteCodes(SetFlag(rows, ids, Retrying), m) ==> x.id !in ids
  {
    var marked := SetFlag(rows, ids, Retrying);
    forall x | x in GetVideoCodes(marked, n) || x in GetVideoIncompleteCodes(marked, m)
      ensures x.id !in ids
    {
      assert x in multiset(marked);
      if x.id in ids {
        FlagIsSet(rows, ids, Retrying, x);
      }
    }
  }

  /** `updateOne({ _id: id }, { $set: ... })` with the five outcome fields. */
  function ApplyUpdate(rows: seq<Row>, id: RowId, u: Update): (r: seq<Row>)
    ensures |r| == |rows|
    ensures forall i :: 0 <= i < |rows| ==> r[i].id == rows[i].id
    ensures forall i :: 0 <= i < |rows| && rows[i].id != id ==> r[i] == rows[i]
  {
    seq(|rows|, i requires 0 <= i < |rows| =>
      if rows[i].id == id then
        rows[i].(errorMessageLogs := u.errorMessageLogs, messageLogs := u.messageLogs,
                 dateCompleted := u.dateCompleted, completedDownload := u.completedDownload,
                 failedDownload := u.failedDownload)
      else rows[i])
  }

  /**
    Recording an outcome writes exactly the five outcome fields of the addressed row and
    never touches its identity, key or progress flags.
  */
  lemma UpdateWritesOnlyOutcome(rows: seq<Row>, id: RowId, u: Update, i: nat)
    requires i < |rows|
    ensures |ApplyUpdate(rows, id, u)| == |rows|
    ensures var after := ApplyUpdate(rows, id, u)[i];
      after.id == rows[i].id && after.videoCode == rows[i].videoCode &&
      after.priority == rows[i].priority && after.dateQueued == rows[i].dateQueued &&
      after.isDownloading == rows[i].isDownloading && after.isRetrying == rows[i].isRetrying
    ensures rows[i].id != id ==> ApplyUpdate(rows, id, u)[i] == rows[i]
    ensures rows[i].id == id ==> var after := ApplyUpdate(rows, id, u)[i];
      after.failedDownload == u.failedDownload && after.completedDownload == u.completedDownload &&
      after.dateCompleted == u.dateCompleted && after.messageLogs == u.messageLogs &&
      after.errorMessageLogs == u.errorMessageLogs
  {
  }

  /**
    Since the update never clears `isDownloading`, a download recorded as failed (or with no
    completion) stays selectable by the incomplete-items query.
  */
  lemma {:induction false} FailedOutcomeStaysIncomplete(rows: seq<Row>, i: nat, u: Update)
    requires i < |rows|
    requires IsTrue(rows[i].isDownloading) && !IsTrue(rows[i].isRetrying)
    requires !IsTrue(u.completedDownload)
    ensures i < |ApplyUpdate(rows, rows[i].id, u)|
    ensures ApplyUpdate(rows, rows[i].id, u)[i] in GetVideoIncompleteCodes(ApplyUpdate(rows, rows[i].id, u), 0)
  {
    var after := ApplyUpdate(rows, rows[i].id, u);
    var x := after[i];
    assert Matches(IncompleteItems, x);
    assert x in Matching(after, IncompleteItems);
    assert x in multiset(Matching(after, IncompleteItems));
  }

  /** Every row of an updated collection carrying the addressed `_id` carries the recorded completion. */
  lemma OutcomeIsRecorded(rows: seq<Row>, id: RowId, u: Update, x: Row)
    requires x in ApplyUpdate(rows, id, u) && x.id == id
    ensures x.completedDownload == u.completedDownload
  {
    var after := ApplyUpdate(rows, id, u);
    var i :| 0 <= i < |after| && after[i] == x;
  }

  /** A completed outcome takes the row out of both queries. */
  lemma {:induction false} CompletedOutcomeLeavesBothQueries(rows: seq<Row>, id: RowId, u: Update, n: int, m: int)
    requires IsTrue(u.completedDownload)
    ensures forall x :: x in GetVideoCodes(ApplyUpdate(rows, id, u), n) ==> x.id != id
    ensures forall x :: x in GetVideoIncompleteCodes(ApplyUpdate(rows, id, u), m) ==> x.id != id
  {
    var after := ApplyUpdate(rows, id, u);
    forall x | x in GetVideoCodes(after, n) || x in GetVideoIncompleteCodes(after, m)
      ensures x.id != id
    {
      assert x in multiset(after);
      if x.id == id {
        OutcomeIsRecorded(rows, id, u, x);
      }
    }
  }

  /** The collection: its rows in insertion order and the source of fresh `_id`s. */
  class Collection {
    var rows: seq<Row>
    var nextId: RowId

    /** `_id`s are unique and every one was handed out before `nextId`. */
    ghost predicate Valid()
      reads this
    {
      (forall i, j :: 0 <= i < j < |rows| ==> rows[i].id != rows[j].id) &&
      (forall i :: 0 <= i < |rows| ==> rows[i].id < nextId)
    }

    constructor ()
      ensures Valid() && rows == []
    {
      rows := [];
      nextId := 0;
    }

    /** `addVideoEntryToDB`: `insertOne` appends one row with a fresh `_id`. */
    method AddVideoEntry(entry: Entry) returns (id: RowId)
      requires Valid()
      modifies this
      ensures Valid()
      ensures id !in IdsOf(old(rows))
      ensures rows == old(rows) + [FromEntry(entry, id)]
    {
      id := nextId;
      rows := rows + [FromEntry(entry, id)];
      nextId := nextId + 1;
    }

    /** `addVideoEntriesToDB`: `insertMany` appends the entries in order, each with a fresh `_id`. */
    method AddVideoEntries(entries: seq<Entry>)
      requires Valid()
      modifies this
      ensures Valid()
      ensures |rows| == |old(rows)| + |entries|
      ensures rows[..|old(rows)|] == old(rows)
      ensures forall k :: 0 <= k < |entries| ==>
        rows[|old(rows)| + k] == FromEntry(entries[k], rows[|old(rows)| + k].id) &&
        rows[|old(rows)| + k].id !in IdsOf(old(rows))
    {
      var added := FromEntries(entries, nextId);
      rows := rows + added;
      nextId := nextId + |entries|;
    }

    /** `updateVideoEntryInDB`: writes the five outcome fields of the row with `_id` = id. */
    method UpdateVideoEntry(entry: Update, id: RowId)
      requires Valid()
      modifies this
      ensures Valid()
      ensures rows == ApplyUpdate(old(rows), id, entry)
      ensures nextId == old(nextId)
    {
      rows := ApplyUpdate(rows, id, entry);
    }

    /** One `updateOne({ _id: id }, { $set: { flag: true } })`; `_id`s are unique, so it is that row's. */
    method SetFlagOnRow(id: RowId, f: Flag)
      requires Valid()
      modifies this
      ensures Valid()
      ensures rows == SetFlag(old(rows), {id}, f)
      ensures nextId == old(nextId)
    {
      rows := SetFlag(rows, {id}, f);
    }

    /** The `forEach` of both mark operations: one flag update per listed row. */
    method MarkEach(entries: seq<Row>, f: Flag)
      requires Valid()
      modifies this
      ensures Valid()
      ensures rows == SetFlag(old(rows), IdsOf(entries), f)
      ensures nextId == old(nextId)
    {
      var i := 0;
      while i < |entries|
        invariant 0 <= i <= |entries|
        invariant Valid() && nextId == old(nextId)
        invariant rows == SetFlag(old(rows), IdsOf(entries[..i]), f)
      {
        SetFlagTwice(old(rows), IdsOf(entries[..i]), {entries[i].id}, f);
        assert IdsOf(entries[..i + 1]) == IdsOf(entries[..i]) + {entries[i].id};
        SetFlagOnRow(entries[i].id, f);
        i := i + 1;
      }
      assert entries[..i] == entries;
    }

    /** `markItemsAsBeingDownloadedInDB`: sets `isDownloading` on exactly the listed rows. */
    method MarkItemsAsBeingDownloaded(entries: seq<Row>)
      requires Valid()
      modifies this
      ensures Valid()
      ensures rows == SetFlag(old(rows), IdsOf(entries), Downloading)
      ensures forall x :: x in GetVideoCodes(rows, 0) ==> x.id !in IdsOf(entries)
    {
      MarkEach(entries, Downloading);
      MarkedDownloadsLeaveNewItems(old(rows), IdsOf(entries), 0);
    }

    /** `markItemsAsBeingRetriedInDB`: sets `isRetrying` on exactly the listed rows. */
    method MarkItemsAsBeingRetried(entries: seq<Row>)
      requires Valid()
      modifies this
      ensures Valid()
      ensures rows == SetFlag(old(rows), IdsOf(entries), Retrying)
      ensures forall x :: x in GetVideoCodes(rows, 0) ==> x.id !in IdsOf(entries)
      ensures forall x :: x in GetVideoIncompleteCodes(rows, 0) ==> x.id !in IdsOf(entries)
    {
      MarkEach(entries, Retrying);
      MarkedRetriesLeaveBothQueries(old(rows), IdsOf(entries), 0, 0);
    }
  }
}
