/** The Google Drive "New or Modified Comments" source
    (components/google_drive/sources/new-or-modified-comments/new-or-modified-comments.mjs):
    the per-file comment-time watermark kept in the key-value store, the
    event meta, the change description taken from the push headers, and the
    hooks that set the initial time. */
module DriveComments {
  import opened JsValues
  import opened SourceEvents

  /** The source's key-value store (`this.db`). */
  type Db = map<string, Value>

  const InitTimeKey: string := "initTime"

  /** `this.db.get(k)`: `undefined` for a missing key. */
  function DbGet(db: Db, k: string): Value
  {
    if k in db then db[k] else Undefined
  }

  /** `_getLastCommentTimeForFile(fileId)`: the stored time when it is
      truthy, otherwise the stored initial time. */
  function LastCommentTime(db: Db, fileId: string): (r: Value)
    ensures Truthy(DbGet(db, fileId)) ==> r == db[fileId]
    ensures !Truthy(DbGet(db, fileId)) ==> r == DbGet(db, InitTimeKey)
  {
    if Truthy(DbGet(db, fileId)) then db[fileId] else DbGet(db, InitTimeKey)
  }

  /** What the hooks make a file read: after `activate` at `now` a file
      without a truthy stored time reads `now`, after `deactivate` it reads
      null; a file with a truthy stored time reads it either way (unless its
      ID is the store key of the initial time itself). */
  lemma HooksSetFallback(db: Db, fileId: string, now: int)
    ensures !Truthy(DbGet(db, fileId)) ==> LastCommentTime(db[InitTimeKey := Num(now)], fileId) == Num(now)
    ensures !Truthy(DbGet(db, fileId)) ==> LastCommentTime(db[InitTimeKey := Null], fileId) == Null
    ensures fileId != InitTimeKey && Truthy(DbGet(db, fileId)) ==>
              LastCommentTime(db[InitTimeKey := Num(now)], fileId) == db[fileId]
              && LastCommentTime(db[InitTimeKey := Null], fileId) == db[fileId]
  {
    if fileId != InitTimeKey {
      assert DbGet(db[InitTimeKey := Num(now)], fileId) == DbGet(db, fileId);
      assert DbGet(db[InitTimeKey := Null], fileId) == DbGet(db, fileId);
    }
  }

  /** The key a file's watermark is stored under: its `id`. */
  function FileKey(file: Props): string
  {
    ToStr(Prop(file, "id"))
  }

  /** `getChanges(headers)`. */
  function GetChanges(headers: Option<Props>): Props
  {
    if headers.None? then [("change", Obj([]))]
    else
      var h := headers.value;
      [("change", Obj([("state", Prop(h, "x-goog-resource-state")),
                       ("resourceURI", Prop(h, "x-goog-resource-uri")),
                       ("changed", Prop(h, "x-goog-changed"))]))]
  }

  /** The change description is `{ change: {} }` without headers; with
      headers its `state`, `resourceURI` and `changed` are the
      `x-goog-resource-state`, `x-goog-resource-uri` and `x-goog-changed`
      header values. */
  lemma ChangesFromHeaders(headers: Option<Props>)
    ensures var r := GetChanges(headers);
            && |r| == 1 && r[0].0 == "change" && r[0].1.Obj?
            && (headers.None? ==> r[0].1.props == [])
            && (headers.Some? ==>
                  && Prop(r[0].1.props, "state") == Prop(headers.value, "x-goog-resource-state")
                  && Prop(r[0].1.props, "resourceURI") == Prop(headers.value, "x-goog-resource-uri")
                  && Prop(r[0].1.props, "changed") == Prop(headers.value, "x-goog-changed"))
  {
    if headers.Some? {
      var h := headers.value;
      var change := GetChanges(headers)[0].1.props;
      assert change[1..][1..] == [change[2]];
      assert Lookup(change, "resourceURI") == Some(Prop(h, "x-goog-resource-uri"));
      assert Lookup(change, "changed") == Some(Prop(h, "x-goog-changed"));
    }
  }

  /** The meta of one comment event. */
  datatype Meta = Meta(id: string, summary: Value, ts: Value)

  /** `generateMeta(data, headers)`. */
  function GenerateMeta(data: Props, headers: Option<Props>, parse: DateParser): Meta
  {
    var ts := TimeValue(parse, Prop(data, "modifiedTime"));
    var eventId := if headers.Some? then Prop(headers.value, "x-goog-message-number") else Undefined;
    Meta(ToStr(Prop(data, "id")) + "-" + ToStr(if Truthy(eventId) then eventId else ts),
         Prop(data, "content"), ts)
  }

  /** The event ID is `<commentId>-<message number>` when the
      `x-goog-message-number` header is truthy, otherwise `<commentId>-<ts>`;
      the summary is the comment's content and `ts` its parsed modification
      time, a number exactly when the date parses. */
  lemma MetaFields(data: Props, headers: Option<Props>, parse: DateParser)
    ensures var m := GenerateMeta(data, headers, parse);
            && m.summary == Prop(data, "content")
            && m.ts == TimeValue(parse, Prop(data, "modifiedTime"))
            && (m.ts.Num? <==> parse(Prop(data, "modifiedTime")).Some?)
            && (headers.Some? && Truthy(Prop(headers.value, "x-goog-message-number")) ==>
                  m.id == ToStr(Prop(data, "id")) + "-" + ToStr(Prop(headers.value, "x-goog-message-number")))
            && (headers.None? || !Truthy(Prop(headers.value, "x-goog-message-number")) ==>
                  m.id == ToStr(Prop(data, "id")) + "-" + ToStr(m.ts))
  {
  }

  /** `Date.parse(comment.modifiedTime)`. */
  function CommentTime(comment: Props, parse: DateParser): Value
  {
    TimeValue(parse, Prop(comment, "modifiedTime"))
  }

  /** The comments that get past `commentTime <= lastCommentTimeForFile`,
      in stream order. */
  function Kept(comments: seq<Props>, threshold: Value, parse: DateParser): (r: seq<Props>)
    ensures |r| <= |comments|
  {
    if comments == [] then []
    else
      var front := Kept(comments[..|comments| - 1], threshold, parse);
      var last := comments[|comments| - 1];
      if NumericLessEq(CommentTime(last, parse), threshold) then front else front + [last]
  }

  /** A comment is kept exactly when it was listed and its time is not at or
      below the threshold (`NaN` compares false, so it is kept). */
  lemma {:induction false} KeptMembers(comments: seq<Props>, threshold: Value, parse: DateParser)
    ensures forall c :: c in Kept(comments, threshold, parse) <==>
              c in comments && !NumericLessEq(CommentTime(c, parse), threshold)
  {
    if comments != [] {
      KeptMembers(comments[..|comments| - 1], threshold, parse);
      assert forall c :: c in comments <==> c in comments[..|comments| - 1] || c == comments[|comments| - 1];
    }
  }

  /** `maxModifiedTime` after the kept comments: `Math.max` folded over their times. */
  function RunningMax(start: Value, kept: seq<Props>, parse: DateParser): Value
  {
    if kept == [] then start
    else MathMax(RunningMax(start, kept[..|kept| - 1], parse), CommentTime(kept[|kept| - 1], parse))
  }

  /** The event for one kept comment: `{ comment, file, ...changes }` and its meta. */
  function CommentEvent(comment: Props, file: Props, headers: Option<Props>, parse: DateParser): Emitted
  {
    var meta := GenerateMeta(comment, headers, parse);
    Emitted(Obj([("comment", Obj(comment)), ("file", Obj(file))] + GetChanges(headers)),
            meta.id, meta.summary, meta.ts)
  }

  function CommentEvents(kept: seq<Props>, file: Props, headers: Option<Props>, parse: DateParser)
    : (r: seq<Emitted>)
    ensures |r| == |kept|
  {
    seq(|kept|, i requires 0 <= i < |kept| => CommentEvent(kept[i], file, headers, parse))
  }

  /** The listing of a file's comments (`googleDrive.listComments(fileId, since)`). */
  type CommentLister = (Value, Value) -> seq<Props>

  /** The comments listed for a file, given the store before the file. */
  function FileComments(db: Db, file: Props, list: CommentLister): seq<Props>
  {
    list(Prop(file, "id"), LastCommentTime(db, FileKey(file)))
  }

  /** One file of `processChanges`: the store and the events after it. The
      threshold is read once; the watermark is written only when a comment
      was emitted. */
  function ProcessFile(db: Db, file: Props, headers: Option<Props>, list: CommentLister, parse: DateParser)
    : (Db, seq<Emitted>)
  {
    var threshold := LastCommentTime(db, FileKey(file));
    var kept := Kept(FileComments(db, file, list), threshold, parse);
    (if kept == [] then db else db[FileKey(file) := RunningMax(threshold, kept, parse)],
     CommentEvents(kept, file, headers, parse))
  }

  /** `processChanges(changedFiles, headers)` on values, file after file. */
  function ProcessFiles(db: Db, files: seq<Props>, headers: Option<Props>, list: CommentLister, parse: DateParser)
    : (Db, seq<Emitted>)
  {
    if files == [] then (db, [])
    else
      var before := ProcessFiles(db, files[..|files| - 1], headers, list, parse);
      var after := ProcessFile(before.0, files[|files| - 1], headers, list, parse);
      (after.0, before.1 + after.1)
  }

  /** One more comment of the stream at or below the threshold: skipped. */
  lemma KeptSkip(comments: seq<Props>, j: nat, threshold: Value, parse: DateParser)
    requires j < |comments| && NumericLessEq(CommentTime(comments[j], parse), threshold)
    ensures Kept(comments[..j + 1], threshold, parse) == Kept(comments[..j], threshold, parse)
  {
    assert comments[..j + 1][..j] == comments[..j];
  }

  /** One more comment of the stream above the threshold (or unparseable): kept. */
  lemma KeptTake(comments: seq<Props>, j: nat, threshold: Value, parse: DateParser)
    requires j < |comments| && !NumericLessEq(CommentTime(comments[j], parse), threshold)
    ensures Kept(comments[..j + 1], threshold, parse) == Kept(comments[..j], threshold, parse) + [comments[j]]
  {
    assert comments[..j + 1][..j] == comments[..j];
  }

  /** One more file of the batch: its watermark update and events follow the earlier files'. */
  lemma ProcessFilesNext(db: Db, files: seq<Props>, i: nat, headers: Option<Props>,
                         list: CommentLister, parse: DateParser)
    requires i < |files|
    ensures var before := ProcessFiles(db, files[..i], headers, list, parse);
            var step := ProcessFile(before.0, files[i], headers, list, parse);
            ProcessFiles(db, files[..i + 1], headers, list, parse) == (step.0, before.1 + step.1)
  {
    assert files[..i + 1][..i] == files[..i];
  }

  // ---- the watermark ----

  /** With a numeric start and numeric comment times, the running maximum is
      a number, at least the start and every time, and one of them. */
  lemma RunningMaxIsMax(start: Value, kept: seq<Props>, parse: DateParser)
    requires start.Num?
    requires forall i :: 0 <= i < |kept| ==> CommentTime(kept[i], parse).Num?
    ensures RunningMax(start, kept, parse).Num?
    ensures RunningMax(start, kept, parse).n >= start.n
    ensures forall i :: 0 <= i < |kept| ==> RunningMax(start, kept, parse).n >= CommentTime(kept[i], parse).n
    ensures RunningMax(start, kept, parse).n == start.n
            || exists i :: 0 <= i < |kept| && RunningMax(start, kept, parse).n == CommentTime(kept[i], parse).n
  {
    RunningMaxBound(start, kept, |kept|, parse);
    RunningMaxAttained(start, kept, |kept|, parse);
    assert kept[..|kept|] == kept;
  }

  /** The running maximum of the first `j` comments is a number, at least
      the start and every time among them. */
  lemma {:induction false} RunningMaxBound(start: Value, kept: seq<Props>, j: nat, parse: DateParser)
    requires j <= |kept|
    requires start.Num?
    requires forall i :: 0 <= i < |kept| ==> CommentTime(kept[i], parse).Num?
    ensures RunningMax(start, kept[..j], parse).Num?
    ensures RunningMax(start, kept[..j], parse).n >= start.n
    ensures forall i :: 0 <= i < j ==> RunningMax(start, kept[..j], parse).n >= CommentTime(kept[i], parse).n
  {
    if j > 0 {
      RunningMaxBound(start, kept, j - 1, parse);
      var m := RunningMax(start, kept[..j - 1], parse);
      RunningMaxNext(start, kept, j - 1, parse);
      var r := MathMax(m, CommentTime(kept[j - 1], parse));
      forall i | 0 <= i < j
        ensures r.n >= CommentTime(kept[i], parse).n
      {
        if i < j - 1 {
          assert m.n >= CommentTime(kept[i], parse).n;
        }
      }
    }
  }

  /** The running maximum of the first `j` comments is the start or one of
      their times. */
  lemma {:induction false} RunningMaxAttained(start: Value, kept: seq<Props>, j: nat, parse: DateParser)
    requires j <= |kept|
    requires start.Num?
    requires forall i :: 0 <= i < |kept| ==> CommentTime(kept[i], parse).Num?
    ensures RunningMax(start, kept[..j], parse).Num?
    ensures RunningMax(start, kept[..j], parse).n == start.n
            || exists i :: 0 <= i < j && RunningMax(start, kept[..j], parse).n == CommentTime(kept[i], parse).n
  {
    if j > 0 {
      RunningMaxAttained(start, kept, j - 1, parse);
      var m := RunningMax(start, kept[..j - 1], parse);
      var t := CommentTime(kept[j - 1], parse);
      RunningMaxNext(start, kept, j - 1, parse);
      var r := MathMax(m, t);
      if r.n != start.n && r.n != t.n {
        var i :| 0 <= i < j - 1 && m.n == CommentTime(kept[i], parse).n;
        assert r.n == CommentTime(kept[i], parse).n;
      }
    }
  }

  lemma RunningMaxNext(start: Value, kept: seq<Props>, j: nat, parse: DateParser)
    requires j < |kept|
    ensures RunningMax(start, kept[..j + 1], parse) == MathMax(RunningMax(start, kept[..j], parse), CommentTime(kept[j], parse))
  {
    assert kept[..j + 1][..j] == kept[..j];
  }

  /** A comment whose time is above the threshold is emitted even when an
      earlier comment of the same file pushed the running maximum above it:
      the threshold is the value read before the loop. */
  lemma ThresholdIsFixed(c1: Props, c2: Props, parse: DateParser)
    requires CommentTime(c1, parse) == Num(30) && CommentTime(c2, parse) == Num(20)
    ensures Kept([c1, c2], Num(10), parse) == [c1, c2]
    ensures RunningMax(Num(10), [c1, c2], parse) == Num(30)
  {
    assert [c1, c2][..1] == [c1];
    assert [c1][..0] == [];
    assert RunningMax(Num(10), [c1], parse) == MathMax(Num(10), Num(30)) == Num(30);
  }

  /** The stored watermark of a file never goes down: after the file it is
      the largest of the previous watermark and the emitted comments' times,
      when the stored value is a positive number and every listed comment
      has a parseable time. */
  lemma {:induction false} WatermarkNeverDecreases(db: Db, file: Props, headers: Option<Props>,
                                                   list: CommentLister, parse: DateParser, n: int)
    requires FileKey(file) in db && db[FileKey(file)] == Num(n) && n > 0
    requires forall c :: c in FileComments(db, file, list) ==> CommentTime(c, parse).Num?
    ensures var db2 := ProcessFile(db, file, headers, list, parse).0;
            && FileKey(file) in db2
            && db2[FileKey(file)].Num?
            && db2[FileKey(file)].n >= n
            && forall e :: e in ProcessFile(db, file, headers, list, parse).1 ==>
                 e.ts.Num? && db2[FileKey(file)].n >= e.ts.n
  {
    var key := FileKey(file);
    var comments := FileComments(db, file, list);
    var threshold := LastCommentTime(db, key);
    assert threshold == Num(n);
    var kept := Kept(comments, threshold, parse);
    KeptNumeric(comments, threshold, parse);
    assert threshold.Num?;
    RunningMaxIsMax(threshold, kept, parse);
    var m := RunningMax(threshold, kept, parse);
    var r := ProcessFile(db, file, headers, list, parse);
    assert r == (if kept == [] then db else db[key := m], CommentEvents(kept, file, headers, parse));
    CommentEventsTimes(kept, file, headers, parse);
  }

  /** Each emitted event carries the time of the comment it was made from. */
  lemma CommentEventsTimes(kept: seq<Props>, file: Props, headers: Option<Props>, parse: DateParser)
    ensures forall i :: 0 <= i < |kept| ==>
              CommentEvents(kept, file, headers, parse)[i].ts == CommentTime(kept[i], parse)
  {
    forall i | 0 <= i < |kept|
      ensures CommentEvents(kept, file, headers, parse)[i].ts == CommentTime(kept[i], parse)
    {
      MetaFields(kept[i], headers, parse);
    }
  }

  /** The kept comments of a stream with parseable times have parseable times. */
  lemma KeptNumeric(comments: seq<Props>, threshold: Value, parse: DateParser)
    requires forall c :: c in comments ==> CommentTime(c, parse).Num?
    ensures forall i :: 0 <= i < |Kept(comments, threshold, parse)| ==>
              CommentTime(Kept(comments, threshold, parse)[i], parse).Num?
  {
    var kept := Kept(comments, threshold, parse);
    KeptMembers(comments, threshold, parse);
    assert forall i :: 0 <= i < |kept| ==> kept[i] in kept;
  }

  /** An unparseable comment time is never skipped (`NaN <= x` is false), and
      the watermark it leaves is `NaN`, which the next run reads as falsy and
      so falls back to the initial time. */
  lemma UnparseableTimePoisonsWatermark(db: Db, file: Props, headers: Option<Props>,
                                        list: CommentLister, parse: DateParser)
    requires FileKey(file) != InitTimeKey
    requires FileComments(db, file, list) != []
    requires forall c :: c in FileComments(db, file, list) ==> CommentTime(c, parse).NaN?
    ensures var r := ProcessFile(db, file, headers, list, parse);
            && |r.1| == |FileComments(db, file, list)|
            && r.0[FileKey(file)] == NaN
            && LastCommentTime(r.0, FileKey(file)) == DbGet(db, InitTimeKey)
  {
    var key := FileKey(file);
    var comments := FileComments(db, file, list);
    var threshold := LastCommentTime(db, key);
    var last := comments[|comments| - 1];
    assert CommentTime(last, parse).NaN? by { assert last in comments; }
    assert forall i :: 0 <= i < |comments| ==> comments[i] in comments;
    KeptAll(comments, threshold, parse);
    var m := RunningMax(threshold, comments, parse);
    assert m == MathMax(RunningMax(threshold, comments[..|comments| - 1], parse), CommentTime(last, parse));
    assert m == NaN;
    var r := ProcessFile(db, file, headers, list, parse);
    assert r == (db[key := m], CommentEvents(comments, file, headers, parse));
    assert !Truthy(DbGet(r.0, key));
  }

  /** Comments none of which compares at or below the threshold are all kept. */
  lemma KeptAll(comments: seq<Props>, threshold: Value, parse: DateParser)
    requires forall i :: 0 <= i < |comments| ==> !NumericLessEq(CommentTime(comments[i], parse), threshold)
    ensures Kept(comments, threshold, parse) == comments
  {
    KeptAllPrefix(comments, |comments|, threshold, parse);
    assert comments[..|comments|] == comments;
  }

  lemma {:induction false} KeptAllPrefix(comments: seq<Props>, j: nat, threshold: Value, parse: DateParser)
    requires j <= |comments|
    requires forall i :: 0 <= i < |comments| ==> !NumericLessEq(CommentTime(comments[i], parse), threshold)
    ensures Kept(comments[..j], threshold, parse) == comments[..j]
  {
    if j > 0 {
      KeptAllPrefix(comments, j - 1, threshold, parse);
      KeptTake(comments, j - 1, threshold, parse);
      PrefixSnoc(comments, j - 1);
    }
  }

  lemma RunningMaxStep(start: Value, kept: seq<Props>, c: Props, parse: DateParser)
    ensures RunningMax(start, kept + [c], parse) == MathMax(RunningMax(start, kept, parse), CommentTime(c, parse))
  {
    assert (kept + [c])[..|kept|] == kept;
  }

  lemma CommentEventsStep(kept: seq<Props>, c: Props, file: Props, headers: Option<Props>, parse: DateParser)
    ensures CommentEvents(kept + [c], file, headers, parse)
            == CommentEvents(kept, file, headers, parse) + [CommentEvent(c, file, headers, parse)]
  {
  }

  lemma MapUpdateTwice(m: Db, k: string, a: Value, b: Value)
    ensures m[k := a][k := b] == m[k := b]
  {
  }

  /** Without an initial time (`undefined`) and no stored time, every comment
      compares against `NaN` and none is skipped. */
  lemma NoInitTimeSkipsNothing(db: Db, file: Props, list: CommentLister, parse: DateParser)
    requires InitTimeKey !in db && FileKey(file) !in db
    ensures Kept(FileComments(db, file, list), LastCommentTime(db, FileKey(file)), parse)
            == FileComments(db, file, list)
  {
    KeptAll(FileComments(db, file, list), Undefined, parse);
  }

  /** One emitted comment: the events grow by its event, the running
      maximum takes in its time, and the store holds the new maximum. */
  lemma EmitStep(db: Db, key: string, emitted: seq<Emitted>, threshold: Value, kept: seq<Props>,
                 c: Props, file: Props, headers: Option<Props>, parse: DateParser)
    ensures var m := RunningMax(threshold, kept, parse);
            var m2 := MathMax(m, CommentTime(c, parse));
            && RunningMax(threshold, kept + [c], parse) == m2
            && emitted + CommentEvents(kept, file, headers, parse) + [CommentEvent(c, file, headers, parse)]
               == emitted + CommentEvents(kept + [c], file, headers, parse)
            && (if kept == [] then db else db[key := m])[key := m2] == db[key := m2]
  {
    var m := RunningMax(threshold, kept, parse);
    var m2 := MathMax(m, CommentTime(c, parse));
    RunningMaxStep(threshold, kept, c, parse);
    CommentEventsStep(kept, c, file, headers, parse);
    AppendAssoc(emitted, CommentEvents(kept, file, headers, parse), [CommentEvent(c, file, headers, parse)]);
    if kept != [] {
      MapUpdateTwice(db, key, m, m2);
    }
  }

  /** The source's state: the store and what it emitted. */
  class CommentsSource {
    var db: Db
    var emitted: seq<Emitted>

    constructor (db: Db)
      ensures this.db == db && emitted == []
    {
      this.db, emitted := db, [];
    }

    /** The `activate` hook: the initial time becomes `now`. */
    method Activate(now: int)
      modifies this
      ensures db == old(db)[InitTimeKey := Num(now)] && emitted == old(emitted)
    {
      db := db[InitTimeKey := Num(now)];
    }

    /** The `deactivate` hook: the initial time becomes `null`. */
    method Deactivate()
      modifies this
      ensures db == old(db)[InitTimeKey := Null] && emitted == old(emitted)
    {
      db := db[InitTimeKey := Null];
    }

    /** `processChanges(changedFiles, headers)`. */
    method ProcessChanges(changedFiles: seq<Props>, headers: Option<Props>, list: CommentLister, parse: DateParser)
      modifies this
      ensures var r := ProcessFiles(old(db), changedFiles, headers, list, parse);
              db == r.0 && emitted == old(emitted) + r.1
    {
      ghost var db0, emitted0 := db, emitted;
      ghost var done: (Db, seq<Emitted>) := (db, []);
      var i := 0;
      while i < |changedFiles|
        invariant 0 <= i <= |changedFiles|
        invariant done == ProcessFiles(db0, changedFiles[..i], headers, list, parse)
        invariant db == done.0
        invariant emitted == emitted0 + done.1
      {
        ghost var step := ProcessFile(done.0, changedFiles[i], headers, list, parse);
        ProcessFilesNext(db0, changedFiles, i, headers, list, parse);
        AppendAssoc(emitted0, done.1, step.1);
        ProcessFileComments(changedFiles[i], headers, list, parse);
        done := (step.0, done.1 + step.1);
        i := i + 1;
      }
      assert changedFiles[..|changedFiles|] == changedFiles;
    }

    /** The body of the `for (const file of changedFiles)` loop. */
    method ProcessFileComments(file: Props, headers: Option<Props>, list: CommentLister, parse: DateParser)
      modifies this
      ensures var r := ProcessFile(old(db), file, headers, list, parse);
              db == r.0 && emitted == old(emitted) + r.1
    {
      var key := FileKey(file);
      var lastCommentTimeForFile := LastCommentTime(db, key);
      var comments := list(Prop(file, "id"), lastCommentTimeForFile);
      ScanComments(key, lastCommentTimeForFile, comments, file, headers, parse);
    }

    /** The `for await (const comment of comments)` loop of one file: every
        comment not at or below the threshold is emitted and raises the
        file's stored time to the running maximum. */
    method ScanComments(key: string, lastCommentTimeForFile: Value, comments: seq<Props>,
                        file: Props, headers: Option<Props>, parse: DateParser)
      modifies this
      ensures var kept := Kept(comments, lastCommentTimeForFile, parse);
              && db == (if kept == [] then old(db) else old(db)[key := RunningMax(lastCommentTimeForFile, kept, parse)])
              && emitted == old(emitted) + CommentEvents(kept, file, headers, parse)
    {
      var store, out := db, emitted;
      var maxModifiedTime := lastCommentTimeForFile;
      ghost var kept: seq<Props> := [];
      var j := 0;
      while j < |comments|
        modifies {}
        invariant 0 <= j <= |comments|
        invariant kept == Kept(comments[..j], lastCommentTimeForFile, parse)
        invariant maxModifiedTime == RunningMax(lastCommentTimeForFile, kept, parse)
        invariant kept == [] ==> store == old(db)
        invariant kept != [] ==> store == old(db)[key := maxModifiedTime]
        invariant out == old(emitted) + CommentEvents(kept, file, headers, parse)
      {
        var comment := comments[j];
        var commentTime := CommentTime(comment, parse);
        if !NumericLessEq(commentTime, lastCommentTimeForFile) {
          KeptTake(comments, j, lastCommentTimeForFile, parse);
          EmitStep(old(db), key, old(emitted), lastCommentTimeForFile, kept, comment, file, headers, parse);
          out := out + [CommentEvent(comment, file, headers, parse)];
          maxModifiedTime := MathMax(maxModifiedTime, commentTime);
          store := store[key := maxModifiedTime];
          kept := kept + [comment];
        } else {
          KeptSkip(comments, j, lastCommentTimeForFile, parse);
        }
        j := j + 1;
      }
      assert comments[..|comments|] == comments;
      db, emitted := store, out;
    }

    /** The `deploy` hook: `processChanges` without headers, over the files
        the Drive listing returned (those modified in the last 30 days). */
    method Deploy(recentFiles: seq<Props>, list: CommentLister, parse: DateParser)
      modifies this
      ensures var r := ProcessFiles(old(db), recentFiles, None, list, parse);
              db == r.0 && emitted == old(emitted) + r.1
    {
      ProcessChanges(recentFiles, None, list, parse);
    }
  }
}
