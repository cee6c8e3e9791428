/** What the stream classes promise about the records they yield: counts,
    order, and the fields every record carries. */
module StreamProperties {
  import opened JsonValues
  import opened Streams

  /** `rec` is `src` updated with `top`: `top`'s keys win, the rest come from `src`. */
  ghost predicate UpdatedBy(rec: Dict, src: Dict, top: Dict)
  {
    forall k :: Get(rec, k) == if Has(top, k) then Get(top, k) else Get(src, k)
  }

  // ---------------------------------------------------------------------------
  // A loop over the rows of a response

  /** The loop `for x in xs: <body>`: each body runs after the previous one,
      and only when it did not raise. */
  function Chain<T>(body: T -> Yielded, xs: seq<T>): Yielded
    decreases |xs|
  {
    if xs == [] then Done([]) else Then(body(xs[0]), Chain(body, xs[1..]))
  }

  /** The loop over `xs` is the loop over the elements before `xs[j]`, then
      the body for `xs[j]`, then the loop over the elements after it. */
  lemma {:induction false} ChainSplit<T>(body: T -> Yielded, xs: seq<T>, j: nat)
    requires j < |xs|
    ensures Chain(body, xs) == Then(Chain(body, xs[..j]), Then(body(xs[j]), Chain(body, xs[j + 1..])))
    decreases j
  {
    var after := Then(body(xs[j]), Chain(body, xs[j + 1..]));
    if j == 0 {
      assert xs[..0] == [];
      assert [] + after.records == after.records;
    } else {
      ChainSplit(body, xs[1..], j - 1);
      assert xs[1..][..j - 1] == xs[..j][1..];
      assert xs[1..][j - 1] == xs[j];
      assert xs[1..][j..] == xs[j + 1..];
      ThenAssoc(body(xs[0]), Chain(body, xs[..j][1..]), after);
    }
  }

  /** When the loop raises nothing, the records the body yields for `xs[j]`
      sit between those of the elements before it and those after it. */
  lemma ChainSegments<T>(body: T -> Yielded, xs: seq<T>, j: nat)
    requires j < |xs|
    requires Chain(body, xs).error.None?
    ensures body(xs[j]).error.None?
    ensures Chain(body, xs).records
         == Chain(body, xs[..j]).records + body(xs[j]).records + Chain(body, xs[j + 1..]).records
    ensures forall k :: |Chain(body, xs[..j]).records| <= k < |Chain(body, xs[..j]).records| + |body(xs[j]).records| ==>
      Chain(body, xs).records[k] in body(xs[j]).records
  {
    ChainSplit(body, xs, j);
    var before, mine, after := Chain(body, xs[..j]), body(xs[j]), Chain(body, xs[j + 1..]);
    ThenRecords(before, Then(mine, after));
    ThenRecords(mine, after);
    forall k | |before.records| <= k < |before.records| + |mine.records|
      ensures Chain(body, xs).records[k] in mine.records
    {
      assert Chain(body, xs).records[k] == mine.records[k - |before.records|];
    }
  }

  // ---------------------------------------------------------------------------
  // Posts

  /** One record per row, in order: the row with `page_id` set and every other
      key kept.  Only a row that is not a dict makes the loop raise. */
  lemma {:induction false} PostsRecordsShape(rows: seq<Json>, pageId: string)
    ensures PostsRecords(rows, pageId).error.None? <==> forall i :: 0 <= i < |rows| ==> rows[i].Obj?
    ensures PostsRecords(rows, pageId).error.Some? ==> PostsRecords(rows, pageId).error == Some(TypeError)
    ensures var y := PostsRecords(rows, pageId);
      y.error.None? ==> |y.records| == |rows| && forall i :: 0 <= i < |rows| ==>
        && rows[i].Obj?
        && Get(y.records[i], "page_id") == Some(Str(pageId))
        && forall k :: k != "page_id" ==> Get(y.records[i], k) == Get(rows[i].fields, k)
    ensures forall rec :: rec in PostsRecords(rows, pageId).records ==> Get(rec, "page_id") == Some(Str(pageId))
    decreases |rows|
  {
    if rows != [] {
      PostsRecordsShape(rows[1..], pageId);
      ThenRecords(Emit(SetItem(rows[0], "page_id", Str(pageId))), PostsRecords(rows[1..], pageId));
      var y := PostsRecords(rows, pageId);
      var rest := PostsRecords(rows[1..], pageId);
      if rows[0].Obj? {
        assert y == Yielded([Set(rows[0].fields, "page_id", Str(pageId))] + rest.records, rest.error);
        forall i | 1 <= i < |rows|
          ensures rows[i] == rows[1..][i - 1]
        {
        }
      }
    }
  }

  // ---------------------------------------------------------------------------
  // The parent stamp of PostTaggedProfile and PostAttachments

  /** `x.update(parent_info)` over a list: one record per item, in order, the
      parent's keys overriding the item's.  Only an item that is not a dict
      makes it raise. */
  lemma {:induction false} WithParentShape(items: seq<Json>, parent: Dict)
    requires DistinctKeys(parent)
    ensures WithParent(items, parent).error.None? <==> forall i :: 0 <= i < |items| ==> items[i].Obj?
    ensures WithParent(items, parent).error.Some? ==> WithParent(items, parent).error == Some(AttributeError)
    ensures var y := WithParent(items, parent);
      y.error.None? ==> |y.records| == |items| && forall i :: 0 <= i < |items| ==>
        items[i].Obj? && UpdatedBy(y.records[i], items[i].fields, parent)
    ensures forall rec :: rec in WithParent(items, parent).records ==>
      exists i :: 0 <= i < |items| && items[i].Obj? && UpdatedBy(rec, items[i].fields, parent)
    decreases |items|
  {
    if items != [] {
      WithParentShape(items[1..], parent);
      var y := WithParent(items, parent);
      var rest := WithParent(items[1..], parent);
      if items[0].Obj? {
        assert y == Yielded([Update(items[0].fields, parent)] + rest.records, rest.error);
        forall i | 1 <= i < |items|
          ensures items[i] == items[1..][i - 1]
        {
        }
        forall rec | rec in y.records
          ensures exists i :: 0 <= i < |items| && items[i].Obj? && UpdatedBy(rec, items[i].fields, parent)
        {
          if rec != y.records[0] {
            assert rec in rest.records;
            var j :| 0 <= j < |items| - 1 && items[1..][j].Obj? && UpdatedBy(rec, items[1..][j].fields, parent);
            assert items[j + 1] == items[1..][j];
          }
        }
      }
    }
  }

  /** The parent info of post `row` is on `rec`, as `page_id`, `post_id` and
      `post_created_time`. */
  ghost predicate Stamped(rec: Dict, pageId: string, row: Json)
  {
    && row.Obj?
    && Get(rec, "page_id") == Some(Str(pageId))
    && Get(rec, "post_id") == Get(row.fields, "id")
    && Get(rec, "post_created_time") == Get(row.fields, "created_time")
  }

  lemma ParentStamp(rec: Dict, pageId: string, row: Json)
    requires ParentInfo(pageId, row).Ok?
    requires Carries(rec, ParentInfo(pageId, row).value)
    ensures Stamped(rec, pageId, row)
  {
    var parent := ParentInfo(pageId, row).value;
    assert Has(parent, "page_id") && Has(parent, "post_id") && Has(parent, "post_created_time");
  }

  // ---------------------------------------------------------------------------
  // PostTaggedProfile

  /** How many profiles a post tags: the length of `row["to"]["data"]`, and
      none when the post has no `to`. */
  function TaggedRowCount(row: Json): nat
  {
    if row.Obj? && Has(row.fields, "to") && Items(row, "to").Ok? then |Items(row, "to").value| else 0
  }

  function TaggedCount(rows: seq<Json>): nat
    decreases |rows|
  {
    if rows == [] then 0 else TaggedRowCount(rows[0]) + TaggedCount(rows[1..])
  }

  /** A post without `to` yields nothing; otherwise one record per tagged
      profile, in order, each the profile updated with the parent info. */
  lemma TaggedRowShape(row: Json, pageId: string)
    ensures var y := TaggedRow(row, pageId);
      y.error.None? ==> ParentInfo(pageId, row).Ok? && |y.records| == TaggedRowCount(row)
    ensures var y := TaggedRow(row, pageId);
      y.error.None? && !Has(row.fields, "to") ==> y.records == []
    ensures var y := TaggedRow(row, pageId);
      y.error.None? && Has(row.fields, "to") ==>
        var profiles := Items(row, "to").value;
        forall i :: 0 <= i < |profiles| ==>
          profiles[i].Obj? && UpdatedBy(y.records[i], profiles[i].fields, ParentInfo(pageId, row).value)
    ensures forall rec :: rec in TaggedRow(row, pageId).records ==> Stamped(rec, pageId, row)
  {
    var y := TaggedRow(row, pageId);
    match ParentInfo(pageId, row) {
      case Err(_) =>
      case Ok(parent) =>
        if Has(row.fields, "to") && Items(row, "to").Ok? {
          var profiles := Items(row, "to").value;
          WithParentShape(profiles, parent);
          forall rec | rec in y.records
            ensures Stamped(rec, pageId, row)
          {
            var i :| 0 <= i < |profiles| && profiles[i].Obj? && UpdatedBy(rec, profiles[i].fields, parent);
            ParentStamp(rec, pageId, row);
          }
        }
    }
  }

  /** Over a whole response: as many records as tagged profiles, each stamped
      with the post it came from. */
  lemma {:induction false} TaggedRecordsShape(rows: seq<Json>, pageId: string)
    ensures var y := TaggedRecords(rows, pageId);
      y.error.None? ==> |y.records| == TaggedCount(rows)
    ensures forall rec :: rec in TaggedRecords(rows, pageId).records ==>
      exists i :: 0 <= i < |rows| && Stamped(rec, pageId, rows[i])
    decreases |rows|
  {
    if rows != [] {
      TaggedRowShape(rows[0], pageId);
      TaggedRecordsShape(rows[1..], pageId);
      var first := TaggedRow(rows[0], pageId);
      var rest := TaggedRecords(rows[1..], pageId);
      ThenRecords(first, rest);
      forall rec | rec in TaggedRecords(rows, pageId).records
        ensures exists i :: 0 <= i < |rows| && Stamped(rec, pageId, rows[i])
      {
        if rec !in first.records {
          var j :| 0 <= j < |rows| - 1 && Stamped(rec, pageId, rows[1..][j]);
          assert rows[j + 1] == rows[1..][j];
        }
      }
    }
  }

  function TaggedBody(pageId: string): Json -> Yielded
  {
    row => TaggedRow(row, pageId)
  }

  lemma {:induction false} TaggedChain(rows: seq<Json>, pageId: string)
    ensures TaggedRecords(rows, pageId) == Chain(TaggedBody(pageId), rows)
    decreases |rows|
  {
    if rows != [] {
      TaggedChain(rows[1..], pageId);
    }
  }

  /** The records of post `j` come after those of the posts before it and
      before those of the posts after it, and each is stamped with post `j`. */
  lemma TaggedProvenance(rows: seq<Json>, pageId: string, j: nat)
    requires j < |rows|
    requires TaggedRecords(rows, pageId).error.None?
    ensures TaggedRecords(rows, pageId).records
         == TaggedRecords(rows[..j], pageId).records + TaggedRow(rows[j], pageId).records
            + TaggedRecords(rows[j + 1..], pageId).records
    ensures forall k :: |TaggedRecords(rows[..j], pageId).records| <= k
                        < |TaggedRecords(rows[..j], pageId).records| + |TaggedRow(rows[j], pageId).records| ==>
      Stamped(TaggedRecords(rows, pageId).records[k], pageId, rows[j])
  {
    TaggedChain(rows, pageId);
    TaggedChain(rows[..j], pageId);
    TaggedChain(rows[j + 1..], pageId);
    ChainSegments(TaggedBody(pageId), rows, j);
    TaggedRowShape(rows[j], pageId);
  }

  // ---------------------------------------------------------------------------
  // PostAttachments

  /** How many records one attachment gives: its sub-attachments and itself. */
  function AttachmentCount(attachment: Json): nat
  {
    if attachment.Obj? && Has(attachment.fields, "subattachments") && Items(attachment, "subattachments").Ok?
    then |Items(attachment, "subattachments").value| + 1
    else 1
  }

  function AttachmentListCount(attachments: seq<Json>): nat
    decreases |attachments|
  {
    if attachments == [] then 0 else AttachmentCount(attachments[0]) + AttachmentListCount(attachments[1..])
  }

  function AttachmentRowCount(row: Json): nat
  {
    if row.Obj? && Has(row.fields, "attachments") && Items(row, "attachments").Ok?
    then AttachmentListCount(Items(row, "attachments").value)
    else 0
  }

  function AttachmentsCount(rows: seq<Json>): nat
    decreases |rows|
  {
    if rows == [] then 0 else AttachmentRowCount(rows[0]) + AttachmentsCount(rows[1..])
  }

  /** The sub-attachments of an attachment come first, in order, each updated
      with the parent info; the attachment itself comes last, without
      `subattachments` and with the parent info.  Every record yielded, even
      before an exception, carries the parent info. */
  lemma AttachmentRecordsShape(attachment: Json, parent: Dict)
    requires DistinctKeys(parent)
    ensures var y := AttachmentRecords(attachment, parent);
      y.error.None? ==> attachment.Obj? && |y.records| == AttachmentCount(attachment)
    ensures var y := AttachmentRecords(attachment, parent);
      y.error.None? && !Has(attachment.fields, "subattachments") ==>
        UpdatedBy(y.records[0], attachment.fields, parent)
    ensures var y := AttachmentRecords(attachment, parent);
      y.error.None? && Has(attachment.fields, "subattachments") ==>
        var subs := Items(attachment, "subattachments").value;
        var last := y.records[|subs|];
        && (forall i :: 0 <= i < |subs| ==> subs[i].Obj? && UpdatedBy(y.records[i], subs[i].fields, parent))
        && (!Has(parent, "subattachments") ==> !Has(last, "subattachments"))
        && (forall k :: k != "subattachments" ==>
              Get(last, k) == if Has(parent, k) then Get(parent, k) else Get(attachment.fields, k))
    ensures forall rec :: rec in AttachmentRecords(attachment, parent).records ==> Carries(rec, parent)
  {
    var y := AttachmentRecords(attachment, parent);
    if attachment.Obj? && Has(attachment.fields, "subattachments") && Items(attachment, "subattachments").Ok? {
      var subs := Items(attachment, "subattachments").value;
      WithParentShape(subs, parent);
      var first := WithParent(subs, parent);
      var last := Update(Remove(attachment.fields, "subattachments"), parent);
      ThenRecords(first, Done([last]));
      if y.error.None? {
        assert y.records == first.records + [last];
        assert y.records[|subs|] == last;
      }
      forall rec | rec in y.records
        ensures Carries(rec, parent)
      {
        if rec != last {
          assert rec in first.records;
        }
      }
    }
  }

  lemma {:induction false} AttachmentListShape(attachments: seq<Json>, parent: Dict)
    requires DistinctKeys(parent)
    ensures var y := AttachmentList(attachments, parent);
      y.error.None? ==> |y.records| == AttachmentListCount(attachments)
    ensures forall rec :: rec in AttachmentList(attachments, parent).records ==> Carries(rec, parent)
    decreases |attachments|
  {
    if attachments != [] {
      AttachmentRecordsShape(attachments[0], parent);
      AttachmentListShape(attachments[1..], parent);
      ThenRecords(AttachmentRecords(attachments[0], parent), AttachmentList(attachments[1..], parent));
    }
  }

  /** A post without `attachments` yields nothing; every record of a post is
      stamped with that post. */
  lemma AttachmentRowShape(row: Json, pageId: string)
    ensures var y := AttachmentRow(row, pageId);
      y.error.None? ==> ParentInfo(pageId, row).Ok? && |y.records| == AttachmentRowCount(row)
    ensures var y := AttachmentRow(row, pageId);
      y.error.None? && !Has(row.fields, "attachments") ==> y.records == []
    ensures forall rec :: rec in AttachmentRow(row, pageId).records ==> Stamped(rec, pageId, row)
  {
    var y := AttachmentRow(row, pageId);
    match ParentInfo(pageId, row) {
      case Err(_) =>
      case Ok(parent) =>
        if Has(row.fields, "attachments") && Items(row, "attachments").Ok? {
          AttachmentListShape(Items(row, "attachments").value, parent);
          forall rec | rec in y.records
            ensures Stamped(rec, pageId, row)
          {
            ParentStamp(rec, pageId, row);
          }
        }
    }
  }

  /** Over a whole response: the count is the sum over posts, and every
      record is stamped with the post it came from. */
  lemma {:induction false} AttachmentRowsShape(rows: seq<Json>, pageId: string)
    ensures var y := AttachmentRows(rows, pageId);
      y.error.None? ==> |y.records| == AttachmentsCount(rows)
    ensures forall rec :: rec in AttachmentRows(rows, pageId).records ==>
      exists i :: 0 <= i < |rows| && Stamped(rec, pageId, rows[i])
    decreases |rows|
  {
    if rows != [] {
      AttachmentRowShape(rows[0], pageId);
      AttachmentRowsShape(rows[1..], pageId);
      var first := AttachmentRow(rows[0], pageId);
      var rest := AttachmentRows(rows[1..], pageId);
      ThenRecords(first, rest);
      forall rec | rec in AttachmentRows(rows, pageId).records
        ensures exists i :: 0 <= i < |rows| && Stamped(rec, pageId, rows[i])
      {
        if rec !in first.records {
          var j :| 0 <= j < |rows| - 1 && Stamped(rec, pageId, rows[1..][j]);
          assert rows[j + 1] == rows[1..][j];
        }
      }
    }
  }

  function AttachmentBody(pageId: string): Json -> Yielded
  {
    row => AttachmentRow(row, pageId)
  }

  lemma {:induction false} AttachmentChain(rows: seq<Json>, pageId: string)
    ensures AttachmentRows(rows, pageId) == Chain(AttachmentBody(pageId), rows)
    decreases |rows|
  {
    if rows != [] {
      AttachmentChain(rows[1..], pageId);
    }
  }

  /** The records of post `j` come after those of the posts before it and
      before those of the posts after it, and each is stamped with post `j`. */
  lemma AttachmentProvenance(rows: seq<Json>, pageId: string, j: nat)
    requires j < |rows|
    requires AttachmentRows(rows, pageId).error.None?
    ensures AttachmentRows(rows, pageId).records
         == AttachmentRows(rows[..j], pageId).records + AttachmentRow(rows[j], pageId).records
            + AttachmentRows(rows[j + 1..], pageId).records
    ensures forall k :: |AttachmentRows(rows[..j], pageId).records| <= k
                        < |AttachmentRows(rows[..j], pageId).records| + |AttachmentRow(rows[j], pageId).records| ==>
      Stamped(AttachmentRows(rows, pageId).records[k], pageId, rows[j])
  {
    AttachmentChain(rows, pageId);
    AttachmentChain(rows[..j], pageId);
    AttachmentChain(rows[j + 1..], pageId);
    ChainSegments(AttachmentBody(pageId), rows, j);
    AttachmentRowShape(rows[j], pageId);
  }

  // ---------------------------------------------------------------------------
  // Insight values, shared by PageInsights and PostInsights

  /** How many records one entry of `values` gives: one per breakdown key
      when its `value` is a dict, else one. */
  function EntryCount(entry: Json): nat
  {
    match Index(entry, "value")
    case Ok(Obj(f)) => |f|
    case _ => 1
  }

  function ValuesCount(entries: seq<Json>): nat
    decreases |entries|
  {
    if entries == [] then 0 else EntryCount(entries[0]) + ValuesCount(entries[1..])
  }

  /** The entries of `insight["values"]`; none when the key is missing. */
  function ValueEntries(insight: Json): seq<Json>
  {
    if insight.Obj? && Has(insight.fields, "values") && Iter(Get(insight.fields, "values").value).Ok?
    then Iter(Get(insight.fields, "values").value).value
    else []
  }

  /** How many records one insight gives. */
  function InsightCount(insight: Json): nat
  {
    ValuesCount(ValueEntries(insight))
  }

  /** A base dict that leaves the keys of a breakdown record alone. */
  predicate FitsBreakdown(base: Dict)
  {
    DistinctKeys(base) && !Has(base, "context") && !Has(base, "value") && !Has(base, "end_time")
  }

  /** The record of one breakdown key. */
  lemma BreakdownRecord(item: (string, Json), entry: Dict, base: Dict, withEndTime: bool)
    requires FitsBreakdown(base)
    requires withEndTime ==> Has(entry, "end_time")
    ensures var y := ContextRecord(item, entry, base, withEndTime);
      && y.error.None? && |y.records| == 1
      && Carries(y.records[0], base)
      && Get(y.records[0], "context") == Some(Str(item.0))
      && Get(y.records[0], "value") == Some(item.1)
      && Get(y.records[0], "end_time") == (if withEndTime then Get(entry, "end_time") else None)
  {
    var literal := if withEndTime
      then [("context", Str(item.0)), ("value", item.1), ("end_time", Get(entry, "end_time").value)]
      else [("context", Str(item.0)), ("value", item.1)];
    assert ContextRecord(item, entry, base, withEndTime) == Done([Update(literal, base)]);
    DistinctGet(literal);
    if withEndTime {
      assert literal[2].0 == "end_time";
    } else {
      AbsentKey(literal, "end_time");
    }
  }

  /** One record per breakdown key, in order: `context` is the key, `value`
      its value, `end_time` the entry's (page insights) or absent (post
      insights), and the base fields.  Only a missing `end_time` raises. */
  lemma {:induction false} ContextRecordsShape(items: Dict, entry: Dict, base: Dict, withEndTime: bool)
    requires FitsBreakdown(base)
    ensures ContextRecords(items, entry, base, withEndTime).error.None? <==>
      items == [] || !withEndTime || Has(entry, "end_time")
    ensures var y := ContextRecords(items, entry, base, withEndTime);
      y.error.None? ==> |y.records| == |items| && forall i :: 0 <= i < |items| ==>
        && Carries(y.records[i], base)
        && Get(y.records[i], "context") == Some(Str(items[i].0))
        && Get(y.records[i], "value") == Some(items[i].1)
        && Get(y.records[i], "end_time") == (if withEndTime then Get(entry, "end_time") else None)
    ensures forall rec :: rec in ContextRecords(items, entry, base, withEndTime).records ==> Carries(rec, base)
    decreases |items|
  {
    if items != [] {
      ContextRecordsShape(items[1..], entry, base, withEndTime);
      var y := ContextRecords(items, entry, base, withEndTime);
      var first := ContextRecord(items[0], entry, base, withEndTime);
      var rest := ContextRecords(items[1..], entry, base, withEndTime);
      ThenRecords(first, rest);
      if first.error.None? {
        BreakdownRecord(items[0], entry, base, withEndTime);
        forall i | 1 <= i < |items|
          ensures items[i] == items[1..][i - 1]
        {
        }
      }
    }
  }

  /** One entry of `values`: a dict `value` is broken down by key, as in
      ContextRecordsShape; any other `value` makes the entry itself, updated
      with the base fields, the one record. */
  lemma InsightValueShape(entry: Json, base: Dict, withEndTime: bool)
    requires FitsBreakdown(base)
    ensures var y := InsightValue(entry, base, withEndTime);
      y.error.None? ==> entry.Obj? && Has(entry.fields, "value") && |y.records| == EntryCount(entry)
    ensures var y := InsightValue(entry, base, withEndTime);
      y.error.None? && !Get(entry.fields, "value").value.Obj? ==> UpdatedBy(y.records[0], entry.fields, base)
    ensures var y := InsightValue(entry, base, withEndTime);
      y.error.None? && Get(entry.fields, "value").value.Obj? ==>
        var items := Get(entry.fields, "value").value.fields;
        forall i :: 0 <= i < |items| ==>
          && Get(y.records[i], "context") == Some(Str(items[i].0))
          && Get(y.records[i], "value") == Some(items[i].1)
          && Get(y.records[i], "end_time") == (if withEndTime then Get(entry.fields, "end_time") else None)
    ensures forall rec :: rec in InsightValue(entry, base, withEndTime).records ==> Carries(rec, base)
  {
    if Index(entry, "value").Ok? && Index(entry, "value").value.Obj? {
      ContextRecordsShape(Index(entry, "value").value.fields, entry.fields, base, withEndTime);
    }
  }

  lemma {:induction false} InsightValuesShape(entries: seq<Json>, base: Dict, withEndTime: bool)
    requires FitsBreakdown(base)
    ensures var y := InsightValues(entries, base, withEndTime);
      y.error.None? ==> |y.records| == ValuesCount(entries)
    ensures forall rec :: rec in InsightValues(entries, base, withEndTime).records ==> Carries(rec, base)
    decreases |entries|
  {
    if entries != [] {
      InsightValueShape(entries[0], base, withEndTime);
      InsightValuesShape(entries[1..], base, withEndTime);
      ThenRecords(InsightValue(entries[0], base, withEndTime), InsightValues(entries[1..], base, withEndTime));
    }
  }

  /** An insight without `values` yields nothing; otherwise its entries'
      records, as many as InsightCount says, all with the base fields. */
  lemma InsightWithBaseShape(insight: Json, base: Dict, withEndTime: bool)
    requires FitsBreakdown(base)
    ensures insight.Obj? && !Has(insight.fields, "values") ==> InsightWithBase(insight, base, withEndTime) == Done([])
    ensures var y := InsightWithBase(insight, base, withEndTime);
      y.error.None? ==> |y.records| == InsightCount(insight)
    ensures forall rec :: rec in InsightWithBase(insight, base, withEndTime).records ==> Carries(rec, base)
  {
    if insight.Obj? && Has(insight.fields, "values") && Iter(Get(insight.fields, "values").value).Ok? {
      InsightValuesShape(ValueEntries(insight), base, withEndTime);
    }
  }

  // ---------------------------------------------------------------------------
  // PageInsights

  /** `rec` carries the `name`, `period`, `title` and `id` of insight row `row`. */
  ghost predicate PageInsightFields(rec: Dict, row: Json)
  {
    && row.Obj?
    && Get(rec, "name") == Get(row.fields, "name")
    && Get(rec, "period") == Get(row.fields, "period")
    && Get(rec, "title") == Get(row.fields, "title")
    && Get(rec, "id") == Get(row.fields, "id")
  }

  lemma PageBaseFits(row: Json)
    requires PageInsightBase(row).Ok?
    ensures FitsBreakdown(PageInsightBase(row).value)
    ensures forall rec :: Carries(rec, PageInsightBase(row).value) ==> PageInsightFields(rec, row)
  {
    var base := PageInsightBase(row).value;
    NotInKeys(base, "context");
    NotInKeys(base, "value");
    NotInKeys(base, "end_time");
    DistinctGet(base);
    assert base[0].0 == "name" && base[1].0 == "period" && base[2].0 == "title" && base[3].0 == "id";
  }

  function PageInsightsCount(rows: seq<Json>): nat
    decreases |rows|
  {
    if rows == [] then 0 else InsightCount(rows[0]) + PageInsightsCount(rows[1..])
  }

  /** One insight row: as many records as InsightCount says, each with the
      row's `name`, `period`, `title` and `id`; none without `values`. */
  lemma PageInsightRowShape(row: Json)
    ensures var y := PageInsightRow(row);
      y.error.None? ==> |y.records| == InsightCount(row)
    ensures PageInsightBase(row).Ok? && !Has(row.fields, "values") ==> PageInsightRow(row) == Done([])
    ensures forall rec :: rec in PageInsightRow(row).records ==> PageInsightFields(rec, row)
  {
    if PageInsightBase(row).Ok? {
      PageBaseFits(row);
      InsightWithBaseShape(row, PageInsightBase(row).value, true);
    }
  }

  /** A whole PageInsights response: the count is the sum over rows, and every
      record carries the fields of the row it came from. */
  lemma {:induction false} PageInsightRowsShape(rows: seq<Json>)
    ensures var y := PageInsightRows(rows);
      y.error.None? ==> |y.records| == PageInsightsCount(rows)
    ensures forall rec :: rec in PageInsightRows(rows).records ==>
      exists i :: 0 <= i < |rows| && PageInsightFields(rec, rows[i])
    decreases |rows|
  {
    if rows != [] {
      PageInsightRowShape(rows[0]);
      PageInsightRowsShape(rows[1..]);
      var first := PageInsightRow(rows[0]);
      var rest := PageInsightRows(rows[1..]);
      ThenRecords(first, rest);
      forall rec | rec in PageInsightRows(rows).records
        ensures exists i :: 0 <= i < |rows| && PageInsightFields(rec, rows[i])
      {
        if rec !in first.records {
          var j :| 0 <= j < |rows| - 1 && PageInsightFields(rec, rows[1..][j]);
          assert rows[j + 1] == rows[1..][j];
        }
      }
    }
  }

  lemma {:induction false} PageInsightChain(rows: seq<Json>)
    ensures PageInsightRows(rows) == Chain(PageInsightRow, rows)
    decreases |rows|
  {
    if rows != [] {
      PageInsightChain(rows[1..]);
    }
  }

  /** The records of row `j` come after those of the rows before it and
      before those of the rows after it, and each carries row `j`'s fields. */
  lemma PageInsightProvenance(rows: seq<Json>, j: nat)
    requires j < |rows|
    requires PageInsightRows(rows).error.None?
    ensures PageInsightRows(rows).records
         == PageInsightRows(rows[..j]).records + PageInsightRow(rows[j]).records + PageInsightRows(rows[j + 1..]).records
    ensures forall k :: |PageInsightRows(rows[..j]).records| <= k
                        < |PageInsightRows(rows[..j]).records| + |PageInsightRow(rows[j]).records| ==>
      PageInsightFields(PageInsightRows(rows).records[k], rows[j])
  {
    PageInsightChain(rows);
    PageInsightChain(rows[..j]);
    PageInsightChain(rows[j + 1..]);
    ChainSegments(PageInsightRow, rows, j);
    PageInsightRowShape(rows[j]);
  }

  // ---------------------------------------------------------------------------
  // PostInsights

  /** `rec` carries post `row`'s parent info and `insight`'s `name`, `period`,
      `title`, `description` and `id`. */
  ghost predicate PostInsightFields(rec: Dict, pageId: string, row: Json, insight: Json)
  {
    && Stamped(rec, pageId, row)
    && insight.Obj?
    && Get(rec, "name") == Get(insight.fields, "name")
    && Get(rec, "period") == Get(insight.fields, "period")
    && Get(rec, "title") == Get(insight.fields, "title")
    && Get(rec, "description") == Get(insight.fields, "description")
    && Get(rec, "id") == Get(insight.fields, "id")
  }

  lemma PostBaseFits(row: Json, insight: Json, pageId: string)
    requires PostInsightBase(row, insight, pageId).Ok?
    ensures FitsBreakdown(PostInsightBase(row, insight, pageId).value)
    ensures forall rec :: Carries(rec, PostInsightBase(row, insight, pageId).value) ==>
      PostInsightFields(rec, pageId, row, insight)
  {
    var base := PostInsightBase(row, insight, pageId).value;
    NotInKeys(base, "context");
    NotInKeys(base, "value");
    NotInKeys(base, "end_time");
    DistinctGet(base);
    assert base[0].0 == "post_id" && base[1].0 == "page_id" && base[2].0 == "post_created_time";
    assert base[3].0 == "name" && base[4].0 == "period" && base[5].0 == "title";
    assert base[6].0 == "description" && base[7].0 == "id";
  }

  /** One insight of a post: as many records as InsightCount says, each with
      the post's and the insight's fields. */
  lemma PostInsightShape(insight: Json, row: Json, pageId: string)
    ensures var y := PostInsight(insight, row, pageId);
      y.error.None? ==> |y.records| == InsightCount(insight)
    ensures forall rec :: rec in PostInsight(insight, row, pageId).records ==>
      PostInsightFields(rec, pageId, row, insight)
  {
    if PostInsightBase(row, insight, pageId).Ok? {
      PostBaseFits(row, insight, pageId);
      InsightWithBaseShape(insight, PostInsightBase(row, insight, pageId).value, false);
    }
  }

  function PostInsightListCount(insights: seq<Json>): nat
    decreases |insights|
  {
    if insights == [] then 0 else InsightCount(insights[0]) + PostInsightListCount(insights[1..])
  }

  lemma {:induction false} PostInsightListShape(insights: seq<Json>, row: Json, pageId: string)
    ensures var y := PostInsightList(insights, row, pageId);
      y.error.None? ==> |y.records| == PostInsightListCount(insights)
    ensures forall rec :: rec in PostInsightList(insights, row, pageId).records ==>
      exists i :: 0 <= i < |insights| && PostInsightFields(rec, pageId, row, insights[i])
    decreases |insights|
  {
    if insights != [] {
      PostInsightShape(insights[0], row, pageId);
      PostInsightListShape(insights[1..], row, pageId);
      var first := PostInsight(insights[0], row, pageId);
      var rest := PostInsightList(insights[1..], row, pageId);
      ThenRecords(first, rest);
      forall rec | rec in PostInsightList(insights, row, pageId).records
        ensures exists i :: 0 <= i < |insights| && PostInsightFields(rec, pageId, row, insights[i])
      {
        if rec !in first.records {
          var j :| 0 <= j < |insights| - 1 && PostInsightFields(rec, pageId, row, insights[1..][j]);
          assert insights[j + 1] == insights[1..][j];
        }
      }
    }
  }

  function PostInsightBody(row: Json, pageId: string): Json -> Yielded
  {
    insight => PostInsight(insight, row, pageId)
  }

  lemma {:induction false} PostInsightListChain(insights: seq<Json>, row: Json, pageId: string)
    ensures PostInsightList(insights, row, pageId) == Chain(PostInsightBody(row, pageId), insights)
    decreases |insights|
  {
    if insights != [] {
      PostInsightListChain(insights[1..], row, pageId);
    }
  }

  /** The records of insight `j` come after those of the insights before it
      and before those of the insights after it, and each carries the post's
      and insight `j`'s fields. */
  lemma PostInsightListProvenance(insights: seq<Json>, row: Json, pageId: string, j: nat)
    requires j < |insights|
    requires PostInsightList(insights, row, pageId).error.None?
    ensures PostInsightList(insights, row, pageId).records
         == PostInsightList(insights[..j], row, pageId).records + PostInsight(insights[j], row, pageId).records
            + PostInsightList(insights[j + 1..], row, pageId).records
    ensures forall k :: |PostInsightList(insights[..j], row, pageId).records| <= k
                        < |PostInsightList(insights[..j], row, pageId).records| + |PostInsight(insights[j], row, pageId).records| ==>
      PostInsightFields(PostInsightList(insights, row, pageId).records[k], pageId, row, insights[j])
  {
    PostInsightListChain(insights, row, pageId);
    PostInsightListChain(insights[..j], row, pageId);
    PostInsightListChain(insights[j + 1..], row, pageId);
    ChainSegments(PostInsightBody(row, pageId), insights, j);
    PostInsightShape(insights[j], row, pageId);
  }

  function PostInsightRowCount(row: Json): nat
  {
    if Items(row, "insights").Ok? then PostInsightListCount(Items(row, "insights").value) else 0
  }

  function PostInsightsCount(rows: seq<Json>): nat
    decreases |rows|
  {
    if rows == [] then 0 else PostInsightRowCount(rows[0]) + PostInsightsCount(rows[1..])
  }

  /** One post: the records of its insights, each stamped with the post and
      carrying the fields of the insight it came from. */
  lemma PostInsightRowShape(row: Json, pageId: string)
    ensures var y := PostInsightRow(row, pageId);
      y.error.None? ==> |y.records| == PostInsightRowCount(row)
    ensures Items(row, "insights").Ok? ==>
      var insights := Items(row, "insights").value;
      forall rec :: rec in PostInsightRow(row, pageId).records ==>
        exists i :: 0 <= i < |insights| && PostInsightFields(rec, pageId, row, insights[i])
    ensures forall rec :: rec in PostInsightRow(row, pageId).records ==> Stamped(rec, pageId, row)
  {
    if Items(row, "insights").Ok? {
      var insights := Items(row, "insights").value;
      PostInsightListShape(insights, row, pageId);
    }
  }

  /** A whole PostInsights response: the count is the sum over posts and
      insights, and every record is stamped with the post it came from. */
  lemma {:induction false} PostInsightRowsShape(rows: seq<Json>, pageId: string)
    ensures var y := PostInsightRows(rows, pageId);
      y.error.None? ==> |y.records| == PostInsightsCount(rows)
    ensures forall rec :: rec in PostInsightRows(rows, pageId).records ==>
      exists i :: 0 <= i < |rows| && Stamped(rec, pageId, rows[i])
    decreases |rows|
  {
    if rows != [] {
      PostInsightRowShape(rows[0], pageId);
      PostInsightRowsShape(rows[1..], pageId);
      var first := PostInsightRow(rows[0], pageId);
      var rest := PostInsightRows(rows[1..], pageId);
      ThenRecords(first, rest);
      forall rec | rec in PostInsightRows(rows, pageId).records
        ensures exists i :: 0 <= i < |rows| && Stamped(rec, pageId, rows[i])
      {
        if rec !in first.records {
          var j :| 0 <= j < |rows| - 1 && Stamped(rec, pageId, rows[1..][j]);
          assert rows[j + 1] == rows[1..][j];
        }
      }
    }
  }

  function PostInsightRowBody(pageId: string): Json -> Yielded
  {
    row => PostInsightRow(row, pageId)
  }

  lemma {:induction false} PostInsightRowsChain(rows: seq<Json>, pageId: string)
    ensures PostInsightRows(rows, pageId) == Chain(PostInsightRowBody(pageId), rows)
    decreases |rows|
  {
    if rows != [] {
      PostInsightRowsChain(rows[1..], pageId);
    }
  }

  /** The records of post `j` come after those of the posts before it and
      before those of the posts after it, and each is stamped with post `j`. */
  lemma PostInsightProvenance(rows: seq<Json>, pageId: string, j: nat)
    requires j < |rows|
    requires PostInsightRows(rows, pageId).error.None?
    ensures PostInsightRows(rows, pageId).records
         == PostInsightRows(rows[..j], pageId).records + PostInsightRow(rows[j], pageId).records
            + PostInsightRows(rows[j + 1..], pageId).records
    ensures forall k :: |PostInsightRows(rows[..j], pageId).records| <= k
                        < |PostInsightRows(rows[..j], pageId).records| + |PostInsightRow(rows[j], pageId).records| ==>
      Stamped(PostInsightRows(rows, pageId).records[k], pageId, rows[j])
  {
    PostInsightRowsChain(rows, pageId);
    PostInsightRowsChain(rows[..j], pageId);
    PostInsightRowsChain(rows[j + 1..], pageId);
    ChainSegments(PostInsightRowBody(pageId), rows, j);
    PostInsightRowShape(rows[j], pageId);
  }

  // ---------------------------------------------------------------------------
  // parse_response of a stream object

  /** What `parse_response` yields is stamped with the `page_id` that
      `get_url_params` recorded, for every class that stamps records. */
  lemma RecordsCarryPageId(stream: FacebookPagesStream, response: Json)
    requires stream.kind in {Posts, PostTaggedProfile, PostAttachments, PostInsights}
    requires stream.pageId.Some?
    ensures forall rec :: rec in stream.ResponseRecords(response).records ==>
      Get(rec, "page_id") == Some(Str(stream.pageId.value))
  {
    var pageId := stream.pageId.value;
    if DataRows(response).Ok? {
      var rows := DataRows(response).value;
      match stream.kind {
        case Posts => PostsRecordsShape(rows, pageId);
        case PostTaggedProfile => TaggedRecordsShape(rows, pageId);
        case PostAttachments => AttachmentRowsShape(rows, pageId);
        case PostInsights => PostInsightRowsShape(rows, pageId);
      }
    }
  }

  /** How many records a response that raises nothing yields, class by class. */
  lemma ResponseCount(stream: FacebookPagesStream, response: Json)
    requires stream.kind != Page
    requires stream.kind != PageInsights ==> stream.pageId.Some?
    ensures var y := stream.ResponseRecords(response);
      y.error.None? ==>
        && DataRows(response).Ok?
        && |y.records| == (match stream.kind
             case Posts => |DataRows(response).value|
             case PostTaggedProfile => TaggedCount(DataRows(response).value)
             case PostAttachments => AttachmentsCount(DataRows(response).value)
             case PageInsights => PageInsightsCount(DataRows(response).value)
             case PostInsights => PostInsightsCount(DataRows(response).value))
  {
    if DataRows(response).Ok? {
      var rows := DataRows(response).value;
      match stream.kind {
        case Posts => PostsRecordsShape(rows, stream.pageId.value);
        case PostTaggedProfile => TaggedRecordsShape(rows, stream.pageId.value);
        case PostAttachments => AttachmentRowsShape(rows, stream.pageId.value);
        case PageInsights => PageInsightRowsShape(rows);
        case PostInsights => PostInsightRowsShape(rows, stream.pageId.value);
      }
    }
  }
}
