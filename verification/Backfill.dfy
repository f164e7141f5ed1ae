/**
 The resumable backfill (nest-js-boilerplate/scripts/backfill-r2-attachments.ts): a cursor-paged
 walk over a table ordered by unique object name, re-uploading what the bucket lacks. Storage
 faults are given per row: a failed stat reads as "absent", a failed upload throws.
 */
module Backfill {
  import opened Wrappers

  datatype Row = Row(objectName: string, ct: Option<string>)

  datatype Fault = Fault(statFails: bool, uploadFails: bool)

  datatype Summary = Summary(total: nat, alreadyPresent: nat, backfilled: nat, failed: nat, missingCiphertext: nat)
  {
    predicate Adds() {
      total == alreadyPresent + backfilled + failed + missingCiphertext
    }
  }

  const BATCH_SIZE: nat := 200

  const ZERO := Summary(0, 0, 0, 0, 0)

  // ---------------------------------------------------------------- one row

  datatype Outcome = AlreadyPresent | Backfilled | FailedUpload | MissingCiphertext

  function Visit(row: Row, fault: Fault, bucket: set<string>, dryRun: bool): Outcome {
    if row.objectName in bucket && !fault.statFails then AlreadyPresent
    else if row.ct.None? || row.ct.value == "" then MissingCiphertext
    else if !dryRun && fault.uploadFails then FailedUpload
    else Backfilled
  }

  function Uploaded(row: Row, o: Outcome, bucket: set<string>, dryRun: bool): set<string> {
    if o == Backfilled && !dryRun then bucket + {row.objectName} else bucket
  }

  function Count(s: Summary, o: Outcome): Summary {
    var t := s.(total := s.total + 1);
    match o
    case AlreadyPresent => t.(alreadyPresent := t.alreadyPresent + 1)
    case Backfilled => t.(backfilled := t.backfilled + 1)
    case FailedUpload => t.(failed := t.failed + 1)
    case MissingCiphertext => t.(missingCiphertext := t.missingCiphertext + 1)
  }

  /** Visiting each row of a table once, in order. */
  function Sweep(rows: seq<Row>, faults: seq<Fault>, bucket: set<string>, dryRun: bool): (Summary, set<string>)
    requires |faults| == |rows|
  {
    if rows == [] then (ZERO, bucket)
    else
      var n := |rows| - 1;
      var (s, b) := Sweep(rows[..n], faults[..n], bucket, dryRun);
      var o := Visit(rows[n], faults[n], b, dryRun);
      (Count(s, o), Uploaded(rows[n], o, b, dryRun))
  }

  predicate NeedsAttention(o: Outcome) {
    o == FailedUpload || o == MissingCiphertext
  }

  /** The rows a sweep reports: those that failed and those that cannot be recovered, in order. */
  function Flagged(rows: seq<Row>, faults: seq<Fault>, bucket: set<string>, dryRun: bool): seq<string>
    requires |faults| == |rows|
  {
    if rows == [] then []
    else
      var n := |rows| - 1;
      var o := Visit(rows[n], faults[n], Sweep(rows[..n], faults[..n], bucket, dryRun).1, dryRun);
      Flagged(rows[..n], faults[..n], bucket, dryRun) + if NeedsAttention(o) then [rows[n].objectName] else []
  }

  // ---------------------------------------------------------------- the paged loop

  /** `objectName` is the primary key. */
  ghost predicate UniqueNames(rows: seq<Row>) {
    forall i, j :: 0 <= i < j < |rows| ==> rows[i].objectName != rows[j].objectName
  }

  /** The row after the cursor. An empty cursor string is falsy: the query then starts over. */
  function StartAfter(rows: seq<Row>, cursor: Option<string>): nat {
    if cursor.None? || cursor.value == "" then 0 else IndexOf(rows, cursor.value) + 1
  }

  function IndexOf(rows: seq<Row>, name: string): (i: nat)
    ensures i <= |rows| && (i < |rows| ==> rows[i].objectName == name)
    ensures forall j :: 0 <= j < i ==> rows[j].objectName != name
  {
    if rows == [] || rows[0].objectName == name then 0 else 1 + IndexOf(rows[1..], name)
  }

  /** `findMany` with `take`, `cursor` and `skip: 1`, in name order. */
  function FindMany(rows: seq<Row>, cursor: Option<string>): seq<Row> {
    var from := StartAfter(rows, cursor);
    if from >= |rows| then [] else if from + BATCH_SIZE <= |rows| then rows[from..from + BATCH_SIZE] else rows[from..]
  }

  /** A page that ends the walk so far at `done` is followed by the page that starts there. */
  lemma CursorResumes(rows: seq<Row>, done: nat)
    requires UniqueNames(rows) && 0 < done <= |rows| && rows[done - 1].objectName != ""
    ensures StartAfter(rows, Some(rows[done - 1].objectName)) == done
  {
    var i := IndexOf(rows, rows[done - 1].objectName);
    assert i <= done - 1;
  }

  /** A page is the rows from where the cursor stands, and is empty only at the end. */
  lemma PageFollowsCursor(rows: seq<Row>, cursor: Option<string>)
    requires StartAfter(rows, cursor) <= |rows|
    ensures var page, done := FindMany(rows, cursor), StartAfter(rows, cursor);
            && done + |page| <= |rows| && page == rows[done..done + |page|]
            && (page == [] <==> done == |rows|)
  {
  }

  /** The one table on which the loop never advances: a single row with an empty name. */
  predicate LoopsForever(rows: seq<Row>) {
    |rows| == 1 && rows[0].objectName == ""
  }

  /** There every query answers the same page, for the cursor it starts with and for the one that page leaves. */
  lemma EmptyNameNeverAdvances(rows: seq<Row>)
    requires LoopsForever(rows)
    ensures FindMany(rows, None) == rows && FindMany(rows, Some(rows[|rows| - 1].objectName)) == rows
  {
  }

  /** A table the loop ends on: unique names in name order, where "" comes first, and not that table. */
  ghost predicate Walkable(rows: seq<Row>) {
    UniqueNames(rows) && !LoopsForever(rows) && forall i :: 0 < i < |rows| ==> rows[i].objectName != ""
  }

  /** On any other table, the name a page ends with leads to the row after it. */
  lemma PageAdvancesCursor(rows: seq<Row>, cursor: Option<string>)
    requires Walkable(rows) && StartAfter(rows, cursor) < |rows|
    ensures var page, done := FindMany(rows, cursor), StartAfter(rows, cursor);
            page != [] && done + |page| <= |rows| && StartAfter(rows, Some(page[|page| - 1].objectName)) == done + |page|
  {
    PageFollowsCursor(rows, cursor);
    var page, done := FindMany(rows, cursor), StartAfter(rows, cursor);
    assert page[|page| - 1] == rows[done + |page| - 1];
    CursorResumes(rows, done + |page|);
  }

  class Bucket {
    var objects: set<string>

    constructor ()
      ensures objects == {}
    {
      objects := {};
    }

    /** Any error reads as "doesn't exist". */
    method Exists(name: string, fault: Fault) returns (found: bool)
      ensures found == (name in objects && !fault.statFails)
    {
      found := name in objects && !fault.statFails;
    }

    method Upload(name: string, fault: Fault) returns (ok: bool)
      modifies this
      ensures ok == !fault.uploadFails
      ensures objects == if ok then old(objects) + {name} else old(objects)
    {
      ok := !fault.uploadFails;
      if ok {
        objects := objects + {name};
      }
    }
  }

  method VisitRow(bucket: Bucket, row: Row, fault: Fault, dryRun: bool) returns (o: Outcome)
    modifies bucket
    ensures o == Visit(row, fault, old(bucket.objects), dryRun)
    ensures bucket.objects == Uploaded(row, o, old(bucket.objects), dryRun)
  {
    var present := bucket.Exists(row.objectName, fault);
    if present { return AlreadyPresent; }
    if row.ct.None? || row.ct.value == "" { return MissingCiphertext; }
    if !dryRun {
      var ok := bucket.Upload(row.objectName, fault);
      if !ok { return FailedUpload; }
    }
    o := Backfilled;
  }

  lemma SweepOneMore(rows: seq<Row>, faults: seq<Fault>, n: nat, bucket: set<string>, dryRun: bool)
    requires |faults| == |rows| && n < |rows|
    ensures var (s, b) := Sweep(rows[..n], faults[..n], bucket, dryRun);
            var o := Visit(rows[n], faults[n], b, dryRun);
            && Sweep(rows[..n + 1], faults[..n + 1], bucket, dryRun) == (Count(s, o), Uploaded(rows[n], o, b, dryRun))
            && Flagged(rows[..n + 1], faults[..n + 1], bucket, dryRun)
            == Flagged(rows[..n], faults[..n], bucket, dryRun) + if NeedsAttention(o) then [rows[n].objectName] else []
  {
    assert rows[..n + 1][..n] == rows[..n] && faults[..n + 1][..n] == faults[..n];
  }

  /** The walk's counters and failure list, updated as it goes. */
  class Walk {
    const bucket: Bucket
    const dryRun: bool
    var summary: Summary
    var visited: seq<Row>
    var failures: seq<string>

    constructor (bucket: Bucket, dryRun: bool)
      ensures this.bucket == bucket && this.dryRun == dryRun && summary == ZERO && visited == [] && failures == []
    {
      this.bucket, this.dryRun := bucket, dryRun;
      summary, visited, failures := ZERO, [], [];
    }

    /** The walk so far is a sweep of the first `done` rows over the bucket it started with. */
    ghost predicate Swept(rows: seq<Row>, faults: seq<Fault>, done: nat, start: set<string>)
      requires |faults| == |rows| && done <= |rows|
      reads this, bucket
    {
      && visited == rows[..done]
      && (summary, bucket.objects) == Sweep(rows[..done], faults[..done], start, dryRun)
      && failures == Flagged(rows[..done], faults[..done], start, dryRun)
    }

    lemma NothingSwept(rows: seq<Row>, faults: seq<Fault>)
      requires |faults| == |rows| && summary == ZERO && visited == [] && failures == []
      ensures Swept(rows, faults, 0, bucket.objects)
    {
      assert rows[..0] == [] && faults[..0] == [];
    }

    lemma AllSwept(rows: seq<Row>, faults: seq<Fault>, start: set<string>)
      requires |faults| == |rows| && Swept(rows, faults, |rows|, start)
      ensures visited == rows && (summary, bucket.objects) == Sweep(rows, faults, start, dryRun)
      ensures failures == Flagged(rows, faults, start, dryRun)
    {
      assert rows[..|rows|] == rows && faults[..|rows|] == faults;
    }

    /** One row: visit it, count the outcome, and note it when it needs attention. */
    method Take(row: Row, ghost rows: seq<Row>, faults: seq<Fault>, ghost n: nat, ghost start: set<string>)
      requires |faults| == |rows| && n < |rows| && row == rows[n] && Swept(rows, faults, n, start)
      modifies this, bucket
      ensures Swept(rows, faults, n + 1, start)
    {
      SweepOneMore(rows, faults, n, start, dryRun);
      assert rows[..n + 1] == rows[..n] + [row];
      ghost var next := Sweep(rows[..n + 1], faults[..n + 1], start, dryRun);
      var outcome := VisitRow(bucket, row, faults[|visited|], dryRun);
      summary, visited := Count(summary, outcome), visited + [row];
      if NeedsAttention(outcome) {
        failures := failures + [row.objectName];
      }
      assert (summary, bucket.objects) == next;
    }

    method VisitPage(page: seq<Row>, ghost rows: seq<Row>, faults: seq<Fault>, ghost done: nat, ghost start: set<string>)
      requires |faults| == |rows| && done + |page| <= |rows| && page == rows[done..done + |page|]
      requires Swept(rows, faults, done, start)
      modifies this, bucket
      ensures Swept(rows, faults, done + |page|, start)
    {
      for i := 0 to |page|
        invariant Swept(rows, faults, done + i, start)
      {
        Take(page[i], rows, faults, done + i, start);
      }
    }

    /**
     The loop ends having visited every row exactly once, in name order, page after page, however
     many rows there are; the exit code is 0 exactly when nothing failed and nothing is missing.
     */
    method Run(rows: seq<Row>, faults: seq<Fault>) returns (exitCode: nat)
      requires Walkable(rows) && |faults| == |rows|
      requires summary == ZERO && visited == [] && failures == []
      modifies this, bucket
      ensures visited == rows
      ensures (summary, bucket.objects) == Sweep(rows, faults, old(bucket.objects), dryRun)
      ensures failures == Flagged(rows, faults, old(bucket.objects), dryRun)
      ensures exitCode == 0 <==> summary.failed == 0 && summary.missingCiphertext == 0
    {
      var cursor: Option<string> := None;
      ghost var done := 0;
      NothingSwept(rows, faults);
      while true
        invariant done <= |rows| && StartAfter(rows, cursor) == done
        invariant Swept(rows, faults, done, old(bucket.objects))
        decreases |rows| - done
      {
        var page := FindMany(rows, cursor);
        PageFollowsCursor(rows, cursor);
        if |page| == 0 { break; }
        VisitPage(page, rows, faults, done, old(bucket.objects));
        PageAdvancesCursor(rows, cursor);
        done := done + |page|;
        cursor := Some(page[|page| - 1].objectName);
      }
      AllSwept(rows, faults, old(bucket.objects));
      exitCode := if summary.failed > 0 || summary.missingCiphertext > 0 then 1 else 0;
    }
  }

  // ---------------------------------------------------------------- what a sweep achieves

  /** The four outcome counters sum to the total, which is the number of rows, and nothing is ever removed. */
  lemma {:induction false} CountersAddUp(rows: seq<Row>, faults: seq<Fault>, bucket: set<string>, dryRun: bool)
    requires |faults| == |rows|
    ensures var (s, b) := Sweep(rows, faults, bucket, dryRun);
            && s.Adds() && s.total == |rows| && bucket <= b && (dryRun ==> b == bucket)
            && |Flagged(rows, faults, bucket, dryRun)| == s.failed + s.missingCiphertext
    decreases |rows|
  {
    if rows != [] {
      CountersAddUp(rows[..|rows| - 1], faults[..|rows| - 1], bucket, dryRun);
    }
  }

  /** A run with no failed and no missing rows, and no dry run, leaves every row's object present. */
  lemma {:induction false} CleanRunUploadsAll(rows: seq<Row>, faults: seq<Fault>, bucket: set<string>)
    requires |faults| == |rows|
    requires var (s, _) := Sweep(rows, faults, bucket, false); s.failed == 0 && s.missingCiphertext == 0
    ensures forall i :: 0 <= i < |rows| ==> rows[i].objectName in Sweep(rows, faults, bucket, false).1
    decreases |rows|
  {
    if rows != [] {
      CleanRunUploadsAll(rows[..|rows| - 1], faults[..|rows| - 1], bucket);
    }
  }

  /** Over a bucket that holds every object, a run whose stats do not fail finds everything present. */
  lemma {:induction false} FullBucketNeedsNothing(rows: seq<Row>, faults: seq<Fault>, bucket: set<string>, dryRun: bool)
    requires |faults| == |rows| && forall i :: 0 <= i < |rows| ==> rows[i].objectName in bucket && !faults[i].statFails
    ensures Sweep(rows, faults, bucket, dryRun) == (Summary(|rows|, |rows|, 0, 0, 0), bucket)
    decreases |rows|
  {
    if rows != [] {
      FullBucketNeedsNothing(rows[..|rows| - 1], faults[..|rows| - 1], bucket, dryRun);
    }
  }

  /** So after a clean run, a rerun backfills nothing and changes nothing. */
  lemma RerunBackfillsNothing(rows: seq<Row>, faults: seq<Fault>, bucket: set<string>, again: seq<Fault>, dryRun: bool)
    requires |faults| == |rows| == |again|
    requires var (s, _) := Sweep(rows, faults, bucket, false); s.failed == 0 && s.missingCiphertext == 0
    requires forall i :: 0 <= i < |again| ==> !again[i].statFails
    ensures var (_, b) := Sweep(rows, faults, bucket, false);
            Sweep(rows, again, b, dryRun) == (Summary(|rows|, |rows|, 0, 0, 0), b)
  {
    CleanRunUploadsAll(rows, faults, bucket);
    FullBucketNeedsNothing(rows, again, Sweep(rows, faults, bucket, false).1, dryRun);
  }

  /**
   An interrupted run resumes: sweeping the whole table again over the bucket a partial run left
   uploads what the partial run did not reach, as if it had not been interrupted.
   */
  lemma {:induction false} ResumedRunCompletes(rows: seq<Row>, done: nat, first: seq<Fault>, second: seq<Fault>, bucket: set<string>)
    requires done <= |rows| && |first| == done && |second| == |rows|
    requires var (_, b) := Sweep(rows[..done], first, bucket, false);
             var (s, _) := Sweep(rows, second, b, false);
             s.failed == 0 && s.missingCiphertext == 0
    ensures var (_, b) := Sweep(rows[..done], first, bucket, false);
            && bucket <= b <= Sweep(rows, second, b, false).1
            && forall i :: 0 <= i < |rows| ==> rows[i].objectName in Sweep(rows, second, b, false).1
  {
    var (_, b) := Sweep(rows[..done], first, bucket, false);
    CountersAddUp(rows[..done], first, bucket, false);
    CountersAddUp(rows, second, b, false);
    CleanRunUploadsAll(rows, second, b);
  }

  // ---------------------------------------------------------------- what the counters count

  /** The bucket had the object when the run began, and the stat says so. */
  predicate Present(row: Row, fault: Fault, bucket: set<string>) {
    row.objectName in bucket && !fault.statFails
  }

  /** Neither an object nor a ciphertext: these bytes are gone. */
  predicate Lost(row: Row, fault: Fault, bucket: set<string>) {
    !Present(row, fault, bucket) && (row.ct == None || row.ct == Some(""))
  }

  /** There is something to upload, and the upload is tried and fails. */
  predicate Fails(row: Row, fault: Fault, bucket: set<string>, dryRun: bool) {
    !Present(row, fault, bucket) && row.ct.Some? && row.ct.value != "" && !dryRun && fault.uploadFails
  }

  /** There is something to upload, and nothing in the way. */
  predicate Uploads(row: Row, fault: Fault, bucket: set<string>, dryRun: bool) {
    !Present(row, fault, bucket) && row.ct.Some? && row.ct.value != "" && (dryRun || !fault.uploadFails)
  }

  function Outcomes(rows: seq<Row>, faults: seq<Fault>, bucket: set<string>, dryRun: bool)
    : (set<nat>, set<nat>, set<nat>, set<nat>)
    requires |faults| == |rows|
  {
    (set i | 0 <= i < |rows| && Present(rows[i], faults[i], bucket),
     set i | 0 <= i < |rows| && Uploads(rows[i], faults[i], bucket, dryRun),
     set i | 0 <= i < |rows| && Fails(rows[i], faults[i], bucket, dryRun),
     set i | 0 <= i < |rows| && Lost(rows[i], faults[i], bucket))
  }

  function UploadedNames(rows: seq<Row>, faults: seq<Fault>, bucket: set<string>, dryRun: bool): set<string>
    requires |faults| == |rows|
  {
    set i | 0 <= i < |rows| && Uploads(rows[i], faults[i], bucket, dryRun) :: rows[i].objectName
  }

  /** A set with one more element, if a condition holds. */
  function With<T>(a: set<T>, x: T, holds: bool): set<T> {
    if holds then a + {x} else a
  }

  lemma OutcomesSnoc(rows: seq<Row>, faults: seq<Fault>, bucket: set<string>, dryRun: bool)
    requires |faults| == |rows| && rows != []
    ensures var n := |rows| - 1;
            var (p, u, f, l) := Outcomes(rows[..n], faults[..n], bucket, dryRun);
            && Outcomes(rows, faults, bucket, dryRun)
               == (With(p, n, Present(rows[n], faults[n], bucket)),
                   With(u, n, Uploads(rows[n], faults[n], bucket, dryRun)),
                   With(f, n, Fails(rows[n], faults[n], bucket, dryRun)),
                   With(l, n, Lost(rows[n], faults[n], bucket)))
            && UploadedNames(rows, faults, bucket, dryRun)
               == With(UploadedNames(rows[..n], faults[..n], bucket, dryRun), rows[n].objectName, Uploads(rows[n], faults[n], bucket, dryRun))
            && n !in p && n !in u && n !in f && n !in l
  {
    var n := |rows| - 1;
    var a, b := Outcomes(rows[..n], faults[..n], bucket, dryRun), Outcomes(rows, faults, bucket, dryRun);
    assert b.0 == With(a.0, n, Present(rows[n], faults[n], bucket));
    assert b.1 == With(a.1, n, Uploads(rows[n], faults[n], bucket, dryRun));
    assert b.2 == With(a.2, n, Fails(rows[n], faults[n], bucket, dryRun));
    assert b.3 == With(a.3, n, Lost(rows[n], faults[n], bucket));
    var was, now := UploadedNames(rows[..n], faults[..n], bucket, dryRun), UploadedNames(rows, faults, bucket, dryRun);
    forall x | x in was ensures x in now {
      var i :| 0 <= i < n && Uploads(rows[..n][i], faults[..n][i], bucket, dryRun) && rows[..n][i].objectName == x;
      assert Uploads(rows[i], faults[i], bucket, dryRun) && rows[i].objectName == x;
    }
    forall x | x in now ensures x in was || (Uploads(rows[n], faults[n], bucket, dryRun) && x == rows[n].objectName) {
      var i :| 0 <= i < |rows| && Uploads(rows[i], faults[i], bucket, dryRun) && rows[i].objectName == x;
      if i < n { assert rows[..n][i] == rows[i] && faults[..n][i] == faults[i]; }
    }
  }

  /** A sweep's counters and bucket agree with the sets of rows of each kind. */
  ghost predicate Agrees(s: Summary, b: set<string>, kinds: (set<nat>, set<nat>, set<nat>, set<nat>), names: set<string>,
                         bucket: set<string>, dryRun: bool)
  {
    && s.alreadyPresent == |kinds.0| && s.backfilled == |kinds.1| && s.failed == |kinds.2| && s.missingCiphertext == |kinds.3|
    && b == bucket + (if dryRun then {} else names)
  }

  lemma {:induction false} SweepCounts(rows: seq<Row>, faults: seq<Fault>, bucket: set<string>, dryRun: bool)
    requires |faults| == |rows| && UniqueNames(rows)
    ensures var (s, b) := Sweep(rows, faults, bucket, dryRun);
            Agrees(s, b, Outcomes(rows, faults, bucket, dryRun), UploadedNames(rows, faults, bucket, dryRun), bucket, dryRun)
    decreases |rows|
  {
    var kinds, names := Outcomes(rows, faults, bucket, dryRun), UploadedNames(rows, faults, bucket, dryRun);
    if rows == [] {
      assert kinds.0 == {} && kinds.1 == {} && kinds.2 == {} && kinds.3 == {} && names == {};
    } else {
      var n := |rows| - 1;
      SweepCounts(rows[..n], faults[..n], bucket, dryRun);
      OutcomesSnoc(rows, faults, bucket, dryRun);
      NewNameAsAtStart(rows, faults, bucket, dryRun);
      var (s, b) := Sweep(rows[..n], faults[..n], bucket, dryRun);
      AgreesSnoc(s, b, Outcomes(rows[..n], faults[..n], bucket, dryRun), UploadedNames(rows[..n], faults[..n], bucket, dryRun),
                 bucket, dryRun, rows[n], faults[n], n);
    }
  }

  lemma AgreesSnoc(s: Summary, b: set<string>, kinds: (set<nat>, set<nat>, set<nat>, set<nat>), names: set<string>,
                   bucket: set<string>, dryRun: bool, row: Row, fault: Fault, n: nat)
    requires Agrees(s, b, kinds, names, bucket, dryRun) && row.objectName !in names
    requires n !in kinds.0 && n !in kinds.1 && n !in kinds.2 && n !in kinds.3
    ensures var o := Visit(row, fault, b, dryRun);
            Agrees(Count(s, o), Uploaded(row, o, b, dryRun),
                   (With(kinds.0, n, Present(row, fault, bucket)),
                    With(kinds.1, n, Uploads(row, fault, bucket, dryRun)),
                    With(kinds.2, n, Fails(row, fault, bucket, dryRun)),
                    With(kinds.3, n, Lost(row, fault, bucket))),
                   With(names, row.objectName, Uploads(row, fault, bucket, dryRun)), bucket, dryRun)
  {
    KindOfVisit(row, fault, bucket, b, dryRun);
  }

  /** A row's own object cannot have been uploaded by the rows before it. */
  lemma NewNameAsAtStart(rows: seq<Row>, faults: seq<Fault>, bucket: set<string>, dryRun: bool)
    requires |faults| == |rows| && UniqueNames(rows) && rows != []
    ensures var n := |rows| - 1; rows[n].objectName !in UploadedNames(rows[..n], faults[..n], bucket, dryRun)
  {
  }

  /** Which kind each outcome is, when the row's object is in the bucket just as it was when the run began. */
  lemma KindOfVisit(row: Row, fault: Fault, start: set<string>, now: set<string>, dryRun: bool)
    requires row.objectName in start <==> row.objectName in now
    ensures Visit(row, fault, now, dryRun) == AlreadyPresent <==> Present(row, fault, start)
    ensures Visit(row, fault, now, dryRun) == Backfilled <==> Uploads(row, fault, start, dryRun)
    ensures Visit(row, fault, now, dryRun) == FailedUpload <==> Fails(row, fault, start, dryRun)
    ensures Visit(row, fault, now, dryRun) == MissingCiphertext <==> Lost(row, fault, start)
  {
  }

  /** The failure list names exactly the rows that failed or are lost. */
  lemma {:induction false} FlaggedNames(rows: seq<Row>, faults: seq<Fault>, bucket: set<string>, dryRun: bool)
    requires |faults| == |rows| && UniqueNames(rows)
    ensures forall i :: 0 <= i < |rows| ==>
              (rows[i].objectName in Flagged(rows, faults, bucket, dryRun)
               <==> Fails(rows[i], faults[i], bucket, dryRun) || Lost(rows[i], faults[i], bucket))
    ensures forall x :: x in Flagged(rows, faults, bucket, dryRun) ==> exists i :: 0 <= i < |rows| && rows[i].objectName == x
    decreases |rows|
  {
    if rows != [] {
      var n := |rows| - 1;
      FlaggedNames(rows[..n], faults[..n], bucket, dryRun);
      SweepCounts(rows[..n], faults[..n], bucket, dryRun);
      NewNameAsAtStart(rows, faults, bucket, dryRun);
      var before := Flagged(rows[..n], faults[..n], bucket, dryRun);
      assert rows[n].objectName !in before;
      FlaggedSnoc(rows, faults, bucket, dryRun, n);
    }
  }

  /**
   Each counter is the number of rows of its kind, judged by the bucket the run began with; the
   bucket gains exactly the uploaded names, and none in a dry run; and the failure list names
   exactly the rows that failed or are lost.
   */
  lemma CountersCountRows(rows: seq<Row>, faults: seq<Fault>, bucket: set<string>, dryRun: bool)
    requires |faults| == |rows| && UniqueNames(rows)
    ensures var (s, b) := Sweep(rows, faults, bucket, dryRun);
            && s.alreadyPresent == |(set i | 0 <= i < |rows| && Present(rows[i], faults[i], bucket))|
            && s.backfilled == |(set i | 0 <= i < |rows| && Uploads(rows[i], faults[i], bucket, dryRun))|
            && s.failed == |(set i | 0 <= i < |rows| && Fails(rows[i], faults[i], bucket, dryRun))|
            && s.missingCiphertext == |(set i | 0 <= i < |rows| && Lost(rows[i], faults[i], bucket))|
            && b == bucket + (if dryRun then {} else UploadedNames(rows, faults, bucket, dryRun))
    ensures forall i :: 0 <= i < |rows| ==>
              (rows[i].objectName in Flagged(rows, faults, bucket, dryRun)
               <==> Fails(rows[i], faults[i], bucket, dryRun) || Lost(rows[i], faults[i], bucket))
    ensures forall x :: x in Flagged(rows, faults, bucket, dryRun) ==> exists i :: 0 <= i < |rows| && rows[i].objectName == x
  {
    SweepCounts(rows, faults, bucket, dryRun);
    FlaggedNames(rows, faults, bucket, dryRun);
    var (p, u, f, l) := Outcomes(rows, faults, bucket, dryRun);
    assert p == (set i | 0 <= i < |rows| && Present(rows[i], faults[i], bucket));
    assert u == (set i | 0 <= i < |rows| && Uploads(rows[i], faults[i], bucket, dryRun));
    assert f == (set i | 0 <= i < |rows| && Fails(rows[i], faults[i], bucket, dryRun));
    assert l == (set i | 0 <= i < |rows| && Lost(rows[i], faults[i], bucket));
  }

  lemma FlaggedSnoc(rows: seq<Row>, faults: seq<Fault>, bucket: set<string>, dryRun: bool, n: nat)
    requires |faults| == |rows| == n + 1 && UniqueNames(rows)
    requires var before := Flagged(rows[..n], faults[..n], bucket, dryRun);
             && rows[n].objectName !in before
             && (forall i :: 0 <= i < n ==>
                   (rows[..n][i].objectName in before
                    <==> Fails(rows[..n][i], faults[..n][i], bucket, dryRun) || Lost(rows[..n][i], faults[..n][i], bucket)))
             && (forall x :: x in before ==> exists i :: 0 <= i < n && rows[..n][i].objectName == x)
    requires rows[n].objectName in Sweep(rows[..n], faults[..n], bucket, dryRun).1 <==> rows[n].objectName in bucket
    ensures var after := Flagged(rows, faults, bucket, dryRun);
            && (forall i :: 0 <= i < |rows| ==>
                  (rows[i].objectName in after
                   <==> Fails(rows[i], faults[i], bucket, dryRun) || Lost(rows[i], faults[i], bucket)))
            && (forall x :: x in after ==> exists i :: 0 <= i < |rows| && rows[i].objectName == x)
  {
    var before, after := Flagged(rows[..n], faults[..n], bucket, dryRun), Flagged(rows, faults, bucket, dryRun);
    var o := Visit(rows[n], faults[n], Sweep(rows[..n], faults[..n], bucket, dryRun).1, dryRun);
    assert after == before + if NeedsAttention(o) then [rows[n].objectName] else [];
    forall i | 0 <= i < |rows|
      ensures rows[i].objectName in after <==> Fails(rows[i], faults[i], bucket, dryRun) || Lost(rows[i], faults[i], bucket)
    {
      if i < n {
        assert rows[..n][i] == rows[i] && faults[..n][i] == faults[i];
        assert rows[i].objectName != rows[n].objectName;
      }
    }
    forall x | x in after ensures exists i :: 0 <= i < |rows| && rows[i].objectName == x {
      if x in before {
        var i :| 0 <= i < n && rows[..n][i].objectName == x;
        assert rows[i].objectName == x;
      } else {
        assert rows[n].objectName == x;
      }
    }
  }
}
