/** The GitHub "New or Updated Issue" source
    (components/github/sources/new-or-updated-issue/new-or-updated-issue.mjs):
    the event-type filter and the webhook gate, and the polling run that
    remembers the full IDs it has seen and emits the new ones. */
module IssuePolling {
  import opened JsValues
  import opened Http
  import opened SourceEvents

  // ---- webhook ----

  /** `checkEventType(type)`: every type passes when `eventTypes` is unset;
      otherwise exactly the listed ones (an empty list lets nothing through). */
  function CheckEventType(eventTypes: Option<seq<string>>, t: Value): (ok: bool)
    ensures eventTypes.None? ==> ok
    ensures eventTypes.Some? ==> (ok <==> t.Str? && t.s in eventTypes.value)
  {
    eventTypes.None? || (t.Str? && t.s in eventTypes.value)
  }

  /** How the event-type setting filters: unset lets every event through, an
      empty list none, a listed type always passes and an unlisted one never,
      and listing more types only lets more events through. */
  lemma EventTypeFilter(eventTypes: seq<string>, more: seq<string>, t: Value)
    ensures CheckEventType(None, t)
    ensures !CheckEventType(Some([]), t)
    ensures t.Str? ==> CheckEventType(Some(eventTypes + [t.s]), t)
    ensures CheckEventType(Some(eventTypes), t) ==> CheckEventType(Some(eventTypes + more), t)
    ensures !t.Str? ==> !CheckEventType(Some(eventTypes + more), t)
  {
  }

  /** `body?.action`. */
  function Action(body: Value): Value
  {
    match GetProp(body, "action")
    case Some(a) => a
    case None => Undefined
  }

  /** `body.<container>.title`: reading `title` of a missing container throws. */
  function ContainerTitle(body: Value, container: string): Result<Value, Exception>
  {
    match GetProp(body, container)
    case None => Err(TypeError("Cannot read properties of " + ToStr(body)))
    case Some(c) =>
      match GetProp(c, "title")
      case None => Err(TypeError("Cannot read properties of " + ToStr(c) + " (reading 'title')"))
      case Some(title) => Ok(title)
  }

  /** The webhook gate with the title read from a given container. */
  function WebhookEvent(body: Value, eventTypes: Option<seq<string>>, now: int, container: string)
    : Result<Option<Emitted>, Exception>
  {
    var action := Action(body);
    if Truthy(action) && CheckEventType(eventTypes, action) then
      match ContainerTitle(body, container)
      case Err(e) => Err(e)
      case Ok(title) =>
        Ok(Some(Emitted(body, ToStr(action) + "_" + ToStr(Num(now)),
                        Str("Issue activity (" + ToStr(action) + "): \"" + ToStr(title) + "\""), Num(now))))
    else Ok(None)
  }

  /** `onWebhookTrigger` as written: the summary reads `body.pull_request.title`. */
  function WebhookAsWritten(body: Value, eventTypes: Option<seq<string>>, now: int)
    : Result<Option<Emitted>, Exception>
  {
    WebhookEvent(body, eventTypes, now, "pull_request")
  }

  /** `onWebhookTrigger` reading the title from the issue the payload carries. */
  function WebhookFromIssue(body: Value, eventTypes: Option<seq<string>>, now: int)
    : Result<Option<Emitted>, Exception>
  {
    WebhookEvent(body, eventTypes, now, "issue")
  }

  /** The gate: an event is emitted exactly for a truthy `action` that passes
      the filter, with ID `<action>_<now>` and timestamp `now`; the event
      carries the payload and the issue's title. */
  lemma WebhookGate(body: Value, eventTypes: Option<seq<string>>, now: int)
    requires body.Obj? && GetProp(body, "issue").value.Obj?
    ensures var action := Action(body);
            var r := WebhookFromIssue(body, eventTypes, now);
            && r.Ok?
            && (r.value.Some? <==> Truthy(action) && CheckEventType(eventTypes, action))
            && (r.value.Some? ==>
                  && r.value.value.body == body
                  && r.value.value.id == ToStr(action) + "_" + ToStr(Num(now))
                  && r.value.value.ts == Num(now)
                  && r.value.value.summary == Str("Issue activity (" + ToStr(action) + "): \""
                                                  + ToStr(GetProp(GetProp(body, "issue").value, "title").value) + "\""))
  {
  }

  /** What goes wrong as written: an `issues` payload has an `issue` and no
      `pull_request`, so every event that passes the gate throws instead of
      being emitted. */
  lemma {:induction false} AsWrittenThrowsOnIssuePayloads(body: Value, eventTypes: Option<seq<string>>, now: int)
    requires body.Obj? && !HasKey(body.props, "pull_request")
    requires Truthy(Action(body)) && CheckEventType(eventTypes, Action(body))
    ensures WebhookAsWritten(body, eventTypes, now).Err?
    ensures WebhookAsWritten(body, eventTypes, now).error.TypeError?
  {
    assert GetProp(body, "pull_request") == Some(Undefined);
  }

  /** A concrete `opened` issue payload: as written it throws; read from the
      issue it is emitted. */
  lemma OpenedIssueExample()
    ensures var body := Obj([("action", Str("opened")), ("issue", Obj([("title", Str("Bug"))]))]);
            && WebhookAsWritten(body, None, 7).Err?
            && WebhookFromIssue(body, None, 7) ==
                 Ok(Some(Emitted(body, "opened_7", Str("Issue activity (opened): \"Bug\""), Num(7))))
  {
    OpenedIssueFields();
    var body := Obj([("action", Str("opened")), ("issue", Obj([("title", Str("Bug"))]))]);
    AsWrittenThrowsOnIssuePayloads(body, None, 7);
    OpenedIssueTexts();
  }

  lemma OpenedIssueTexts()
    ensures ToStr(Str("opened")) + "_" + ToStr(Num(7)) == "opened_7"
    ensures "Issue activity (" + ToStr(Str("opened")) + "): \"" + ToStr(Str("Bug")) + "\""
            == "Issue activity (opened): \"Bug\""
  {
    assert ToStr(Num(7)) == "7";
  }

  lemma OpenedIssueFields()
    ensures var body := Obj([("action", Str("opened")), ("issue", Obj([("title", Str("Bug"))]))]);
            && Action(body) == Str("opened")
            && !HasKey(body.props, "pull_request")
            && ContainerTitle(body, "issue") == Ok(Str("Bug"))
  {
    var body := Obj([("action", Str("opened")), ("issue", Obj([("title", Str("Bug"))]))]);
    assert Lookup(body.props, "action") == Some(Str("opened"));
    assert Lookup(body.props, "issue") == Some(Obj([("title", Str("Bug"))]));
  }

  // ---- polling ----

  /** `emitUpdates === false ? "created" : "updated"`. */
  function SortFor(emitUpdates: Value): (sort: string)
    ensures sort == "created" <==> emitUpdates == Bool(false)
    ensures sort == "created" || sort == "updated"
  {
    if emitUpdates == Bool(false) then "created" else "updated"
  }

  /** `${item.id}_${item[sort + "_at"]}`. */
  function FullId(item: Props, sort: string): string
  {
    ToStr(Prop(item, "id")) + "_" + ToStr(Prop(item, sort + "_at"))
  }

  function FullIds(items: seq<Props>, sort: string): (r: seq<string>)
    ensures |r| == |items|
    ensures forall i :: 0 <= i < |items| ==> r[i] == FullId(items[i], sort)
  {
    seq(|items|, i requires 0 <= i < |items| => FullId(items[i], sort))
  }

  /** The `filter` against the list as it was read, in input order. */
  function Unsaved(items: seq<Props>, saved: seq<string>, sort: string): (r: seq<Props>)
    ensures |r| <= |items|
    ensures forall x :: x in r <==> x in items && FullId(x, sort) !in saved
  {
    if items == [] then []
    else
      var front := Unsaved(items[..|items| - 1], saved, sort);
      var last := items[|items| - 1];
      assert forall x :: x in items <==> x in items[..|items| - 1] || x == last;
      if FullId(last, sort) in saved then front else front + [last]
  }

  /** The event for one item. */
  function IssueEvent(item: Props, sort: string, parse: DateParser): Emitted
  {
    Emitted(Obj(item), FullId(item, sort),
            Str("Issue " + sort + ": \"" + ToStr(Prop(item, "title")) + "\""),
            TimeValue(parse, Prop(item, sort + "_at")))
  }

  /** The timestamp a run keys on: the creation time exactly when
      `emitUpdates` is `false`, the update time otherwise (also when it is
      unset); the event's ID, summary and timestamp all use it. */
  lemma SortChoosesTimestamp(emitUpdates: Value, item: Props, parse: DateParser)
    ensures var e := IssueEvent(item, SortFor(emitUpdates), parse);
            var stamp := if emitUpdates == Bool(false) then "created_at" else "updated_at";
            && e.id == ToStr(Prop(item, "id")) + "_" + ToStr(Prop(item, stamp))
            && e.ts == TimeValue(parse, Prop(item, stamp))
            && e.summary == Str("Issue " + (if emitUpdates == Bool(false) then "created" else "updated")
                                + ": \"" + ToStr(Prop(item, "title")) + "\"")
    ensures SortFor(Undefined) == "updated" && SortFor(Bool(true)) == "updated"
  {
    var sort := SortFor(emitUpdates);
    if emitUpdates == Bool(false) {
      assert sort + "_at" == "created_at";
    } else {
      assert sort + "_at" == "updated_at";
    }
  }

  function IssueEvents(items: seq<Props>, sort: string, parse: DateParser): (r: seq<Emitted>)
    ensures |r| == |items|
    ensures forall i :: 0 <= i < |items| ==> r[i] == IssueEvent(items[i], sort, parse)
  {
    seq(|items|, i requires 0 <= i < |items| => IssueEvent(items[i], sort, parse))
  }

  lemma FullIdsSnoc(items: seq<Props>, item: Props, sort: string)
    ensures FullIds(items + [item], sort) == FullIds(items, sort) + [FullId(item, sort)]
  {
  }

  lemma IssueEventsSnoc(items: seq<Props>, item: Props, sort: string, parse: DateParser)
    ensures IssueEvents(items + [item], sort, parse) == IssueEvents(items, sort, parse) + [IssueEvent(item, sort, parse)]
  {
  }

  /** One polling run on values: the new saved list and the emitted events. */
  function TimerRun(saved: seq<string>, items: seq<Props>, sort: string, parse: DateParser)
    : (seq<string>, seq<Emitted>)
  {
    var newItems := Unsaved(items, saved, sort);
    (saved + FullIds(newItems, sort), if |saved| > 0 then IssueEvents(newItems, sort, parse) else [])
  }

  lemma {:induction false} UnsavedNothingSaved(items: seq<Props>, sort: string)
    ensures Unsaved(items, [], sort) == items
  {
    if items != [] {
      UnsavedNothingSaved(items[..|items| - 1], sort);
      PrefixSnoc(items, |items| - 1);
      assert items[..|items|] == items;
    }
  }

  /** The first run only records: nothing is emitted, and every fetched
      item's full ID is saved, in order. */
  lemma FirstRunOnlyRecords(items: seq<Props>, sort: string, parse: DateParser)
    ensures TimerRun([], items, sort, parse) == (FullIds(items, sort), [])
  {
    UnsavedNothingSaved(items, sort);
    assert [] + FullIds(items, sort) == FullIds(items, sort);
  }

  /** Seen full IDs are neither emitted nor saved again; the list only grows,
      and by exactly the IDs of the unsaved items, in input order. */
  lemma SeenIdsIgnored(saved: seq<string>, items: seq<Props>, sort: string, parse: DateParser)
    ensures var r := TimerRun(saved, items, sort, parse);
            && r.0[..|saved|] == saved
            && r.0[|saved|..] == FullIds(Unsaved(items, saved, sort), sort)
            && (forall i :: |saved| <= i < |r.0| ==> r.0[i] !in saved)
            && (forall e :: e in r.1 ==> e.id !in saved)
  {
    var newItems := Unsaved(items, saved, sort);
    var r := TimerRun(saved, items, sort, parse);
    assert r.0[|saved|..] == FullIds(newItems, sort);
    forall i | |saved| <= i < |r.0| ensures r.0[i] !in saved {
      assert r.0[i] == FullId(newItems[i - |saved|], sort);
      assert newItems[i - |saved|] in newItems;
    }
    forall e | e in r.1 ensures e.id !in saved {
      var j :| 0 <= j < |r.1| && r.1[j] == e;
      assert newItems[j] in newItems;
    }
  }

  /** Later runs emit every unsaved item, in input order, and each event's ID
      is the full ID saved for it. */
  lemma LaterRunsEmitNewItems(saved: seq<string>, items: seq<Props>, sort: string, parse: DateParser)
    requires saved != []
    ensures var r := TimerRun(saved, items, sort, parse);
            var newItems := Unsaved(items, saved, sort);
            && |r.1| == |newItems|
            && (forall i :: 0 <= i < |newItems| ==> r.1[i].body == Obj(newItems[i]) && r.1[i].id == r.0[|saved| + i])
            && (forall x :: x in items && FullId(x, sort) !in saved ==> exists e :: e in r.1 && e.body == Obj(x))
  {
    var r := TimerRun(saved, items, sort, parse);
    var newItems := Unsaved(items, saved, sort);
    forall x | x in items && FullId(x, sort) !in saved ensures exists e :: e in r.1 && e.body == Obj(x) {
      var j :| 0 <= j < |newItems| && newItems[j] == x;
      assert r.1[j] in r.1;
    }
  }

  /** The filter looks at the list as it was read, so two fetched items with
      the same full ID are both saved and both emitted. */
  lemma DuplicatesInOneBatch(parse: DateParser)
    ensures var item := [("id", Num(1)), ("updated_at", Str("t"))];
            var r := TimerRun(["0_s"], [item, item], "updated", parse);
            && r.0 == ["0_s", "1_t", "1_t"]
            && |r.1| == 2 && r.1[0].id == r.1[1].id
  {
    var item := [("id", Num(1)), ("updated_at", Str("t"))];
    DuplicateItemId();
    DuplicateUnsaved();
    assert FullIds([item, item], "updated") == ["1_t", "1_t"];
  }

  lemma DuplicateUnsaved()
    ensures var item := [("id", Num(1)), ("updated_at", Str("t"))];
            Unsaved([item, item], ["0_s"], "updated") == [item, item]
  {
    var item := [("id", Num(1)), ("updated_at", Str("t"))];
    DuplicateItemId();
    assert [item, item][..1] == [item];
    assert [item][..0] == [];
    assert Unsaved([item], ["0_s"], "updated") == [item];
  }

  lemma DuplicateItemId()
    ensures FullId([("id", Num(1)), ("updated_at", Str("t"))], "updated") == "1_t"
  {
    var item := [("id", Num(1)), ("updated_at", Str("t"))];
    assert Prop(item, "id") == Num(1);
    assert Prop(item, "updated_at") == Str("t");
    assert NatToDecimal(1) == "1";
  }

  /** The source's persistent state: the saved full IDs and what it emitted. */
  class IssuePoller {
    var savedItems: seq<string>
    var emitted: seq<Emitted>

    constructor ()
      ensures savedItems == [] && emitted == []
    {
      savedItems, emitted := [], [];
    }

    /** `onWebhookTrigger`, reading the title from the issue. */
    method OnWebhookTrigger(body: Value, eventTypes: Option<seq<string>>, now: int)
      returns (thrown: Option<Exception>)
      modifies this
      ensures var r := WebhookFromIssue(body, eventTypes, now);
              && savedItems == old(savedItems)
              && (r.Err? ==> thrown == Some(r.error) && emitted == old(emitted))
              && (r.Ok? ==> thrown.None? && emitted == old(emitted) + (if r.value.Some? then [r.value.value] else []))
    {
      var r := WebhookFromIssue(body, eventTypes, now);
      thrown := None;
      match r {
        case Err(e) => thrown := Some(e);
        case Ok(None) =>
        case Ok(Some(ev)) => emitted := emitted + [ev];
      }
    }

    /** `onTimerTrigger`: fetch with the chosen sort, filter against the list
        as read, then for each new item emit (unless the list was empty) and
        append its full ID. */
    method OnTimerTrigger(emitUpdates: Value, latestIssues: string -> seq<Props>, parse: DateParser)
      modifies this
      ensures var sort := SortFor(emitUpdates);
              var r := TimerRun(old(savedItems), latestIssues(sort), sort, parse);
              savedItems == r.0 && emitted == old(emitted) + r.1
    {
      var sort := SortFor(emitUpdates);
      var items := latestIssues(sort);
      var shouldEmit := |savedItems| > 0;
      var newItems := Unsaved(items, savedItems, sort);
      var saved, out := savedItems, emitted;
      var i := 0;
      while i < |newItems|
        invariant 0 <= i <= |newItems|
        invariant saved == old(savedItems) + FullIds(newItems[..i], sort)
        invariant shouldEmit ==> out == old(emitted) + IssueEvents(newItems[..i], sort, parse)
        invariant !shouldEmit ==> out == old(emitted)
      {
        var item := newItems[i];
        var id := FullId(item, sort);
        PrefixSnoc(newItems, i);
        if shouldEmit {
          var ts := TimeValue(parse, Prop(item, sort + "_at"));
          var summary := "Issue " + sort + ": \"" + ToStr(Prop(item, "title")) + "\"";
          IssueEventsSnoc(newItems[..i], item, sort, parse);
          AppendAssoc(old(emitted), IssueEvents(newItems[..i], sort, parse), [IssueEvent(item, sort, parse)]);
          out := out + [Emitted(Obj(item), id, Str(summary), ts)];
        }
        FullIdsSnoc(newItems[..i], item, sort);
        AppendAssoc(old(savedItems), FullIds(newItems[..i], sort), [id]);
        saved := saved + [id];
        i := i + 1;
      }
      assert newItems[..|newItems|] == newItems;
      savedItems, emitted := saved, out;
    }
  }
}
