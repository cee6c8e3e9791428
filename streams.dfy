/** The stream classes of the connector: how each builds the query parameters
    of a request, picks the next page token, and flattens a decoded response
    into records.  The six Python subclasses become one class whose `kind`
    says which of them an object is. */
module Streams {
  import opened JsonValues

  /** The page size every first-page request asks for. */
  const PAGE_LIMIT := 100

  datatype StreamKind = Page | Posts | PostTaggedProfile | PostAttachments | PageInsights | PostInsights

  /** The `tap_stream_id` each class declares; the insight classes declare
      none (PageInsights) or an empty one (PostInsights), and the tap gives
      every insight stream its own. */
  function ClassStreamId(kind: StreamKind): string
  {
    match kind
    case Page => "page"
    case Posts => "posts"
    case PostTaggedProfile => "post_tagged_profile"
    case PostAttachments => "post_attachments"
    case PageInsights => ""
    case PostInsights => ""
  }

  /** A partition `{"page_id": x}`. */
  datatype Partition = Partition(pageId: string)

  // ---------------------------------------------------------------------------
  // What a generator yields

  /** The records a `parse_response` generator yields, and the exception that
      ended it early, if one did (the records are those yielded before it). */
  datatype Yielded = Yielded(records: seq<Dict>, error: Option<Error>)

  function Done(records: seq<Dict>): Yielded
  {
    Yielded(records, None)
  }

  function Raise(e: Error): Yielded
  {
    Yielded([], Some(e))
  }

  /** Running one generator body after another: the second runs only when
      the first did not raise. */
  function Then(a: Yielded, b: Yielded): Yielded
  {
    if a.error.Some? then a else Yielded(a.records + b.records, b.error)
  }

  /** One record, or the exception that building it raised. */
  function Emit(r: Result<Dict>): Yielded
  {
    match r
    case Ok(d) => Done([d])
    case Err(e) => Raise(e)
  }

  lemma ThenAssoc(a: Yielded, b: Yielded, c: Yielded)
    ensures Then(Then(a, b), c) == Then(a, Then(b, c))
  {
  }

  lemma ThenRecords(a: Yielded, b: Yielded)
    ensures Then(a, b).error.None? ==> a.error.None? && b.error.None?
    ensures Then(a, b).error.None? ==> Then(a, b).records == a.records + b.records
    ensures forall rec :: rec in Then(a, b).records ==> rec in a.records || rec in b.records
  {
  }

  // ---------------------------------------------------------------------------
  // Pieces of a response

  /** `resp_json["data"]`, iterated. */
  function DataRows(response: Json): (r: Result<seq<Json>>)
    ensures r.Ok? ==> response.Obj? && Has(response.fields, "data")
  {
    match Index(response, "data")
    case Err(e) => Err(e)
    case Ok(d) => Iter(d)
  }

  /** `j[key]["data"]`, iterated. */
  function Items(j: Json, key: string): (r: Result<seq<Json>>)
    ensures r.Ok? ==> j.Obj? && Has(j.fields, key)
  {
    match Index(j, key)
    case Err(e) => Err(e)
    case Ok(v) =>
      match Index(v, "data")
      case Err(e) => Err(e)
      case Ok(d) => Iter(d)
  }

  /** The `parent_info` dict of a post:
      `{"page_id": self.page_id, "post_id": row["id"], "post_created_time": row["created_time"]}`. */
  function ParentInfo(pageId: string, row: Json): (r: Result<Dict>)
    ensures r.Ok? <==> row.Obj? && Has(row.fields, "id") && Has(row.fields, "created_time")
    ensures r.Ok? ==> DistinctKeys(r.value) && |r.value| == 3
    ensures r.Ok? ==> Get(r.value, "page_id") == Some(Str(pageId))
    ensures r.Ok? ==> Get(r.value, "post_id") == Get(row.fields, "id")
    ensures r.Ok? ==> Get(r.value, "post_created_time") == Get(row.fields, "created_time")
  {
    match Lookup(row, ["id", "created_time"])
    case Err(e) => Err(e)
    case Ok(vs) =>
      var parent := [("page_id", Str(pageId)), ("post_id", vs[0]), ("post_created_time", vs[1])];
      DistinctGet(parent);
      assert parent[2].0 == "post_created_time";
      Ok(parent)
  }

  /** `rec` has every key of `src` with `src`'s value. */
  ghost predicate Carries(rec: Dict, src: Dict)
  {
    forall k :: Has(src, k) ==> Get(rec, k) == Get(src, k)
  }

  // ---------------------------------------------------------------------------
  // Posts.parse_response

  /** `for row in data: row["page_id"] = self.page_id; yield row` */
  function PostsRecords(rows: seq<Json>, pageId: string): Yielded
    decreases |rows|
  {
    if rows == [] then Done([])
    else Then(Emit(SetItem(rows[0], "page_id", Str(pageId))), PostsRecords(rows[1..], pageId))
  }

  function PostsResponse(response: Json, pageId: string): Yielded
  {
    match DataRows(response)
    case Err(e) => Raise(e)
    case Ok(rows) => PostsRecords(rows, pageId)
  }

  // ---------------------------------------------------------------------------
  // PostTaggedProfile.parse_response

  /** `for x in items: x.update(parent_info); yield x` */
  function WithParent(items: seq<Json>, parent: Dict): Yielded
    decreases |items|
  {
    if items == [] then Done([])
    else Then(Emit(UpdateItem(items[0], parent)), WithParent(items[1..], parent))
  }

  function TaggedRow(row: Json, pageId: string): Yielded
  {
    match ParentInfo(pageId, row)
    case Err(e) => Raise(e)
    case Ok(parent) =>
      if !Has(row.fields, "to") then Done([])
      else match Items(row, "to")
        case Err(e) => Raise(e)
        case Ok(profiles) => WithParent(profiles, parent)
  }

  function TaggedRecords(rows: seq<Json>, pageId: string): Yielded
    decreases |rows|
  {
    if rows == [] then Done([])
    else Then(TaggedRow(rows[0], pageId), TaggedRecords(rows[1..], pageId))
  }

  function TaggedResponse(response: Json, pageId: string): Yielded
  {
    match DataRows(response)
    case Err(e) => Raise(e)
    case Ok(rows) => TaggedRecords(rows, pageId)
  }

  // ---------------------------------------------------------------------------
  // PostAttachments.parse_response

  /** One attachment: its sub-attachments first, then the attachment itself
      without its `subattachments` key. */
  function AttachmentRecords(attachment: Json, parent: Dict): Yielded
  {
    match Contains(attachment, "subattachments")
    case Err(e) => Raise(e)
    case Ok(false) => Emit(UpdateItem(attachment, parent))
    case Ok(true) =>
      match Items(attachment, "subattachments")
      case Err(e) => Raise(e)
      case Ok(subs) =>
        // the pop cannot fail: the key was just read
        Then(WithParent(subs, parent), Done([Update(Remove(attachment.fields, "subattachments"), parent)]))
  }

  function AttachmentList(attachments: seq<Json>, parent: Dict): Yielded
    decreases |attachments|
  {
    if attachments == [] then Done([])
    else Then(AttachmentRecords(attachments[0], parent), AttachmentList(attachments[1..], parent))
  }

  function AttachmentRow(row: Json, pageId: string): Yielded
  {
    match ParentInfo(pageId, row)
    case Err(e) => Raise(e)
    case Ok(parent) =>
      if !Has(row.fields, "attachments") then Done([])
      else match Items(row, "attachments")
        case Err(e) => Raise(e)
        case Ok(attachments) => AttachmentList(attachments, parent)
  }

  function AttachmentRows(rows: seq<Json>, pageId: string): Yielded
    decreases |rows|
  {
    if rows == [] then Done([])
    else Then(AttachmentRow(rows[0], pageId), AttachmentRows(rows[1..], pageId))
  }

  function AttachmentsResponse(response: Json, pageId: string): Yielded
  {
    match DataRows(response)
    case Err(e) => Raise(e)
    case Ok(rows) => AttachmentRows(rows, pageId)
  }

  // ---------------------------------------------------------------------------
  // Insight values, shared by PageInsights and PostInsights

  /** The record for one breakdown key: `{"context": key, "value": value}`,
      with `"end_time": values["end_time"]` for page insights, then
      `.update(base_item)`. */
  function ContextRecord(item: (string, Json), entry: Dict, base: Dict, withEndTime: bool): Yielded
  {
    if !withEndTime then Done([Update([("context", Str(item.0)), ("value", item.1)], base)])
    else match Get(entry, "end_time")
      case None => Raise(KeyError)
      case Some(t) => Done([Update([("context", Str(item.0)), ("value", item.1), ("end_time", t)], base)])
  }

  /** `for key, value in values["value"].items(): ...` */
  function ContextRecords(items: Dict, entry: Dict, base: Dict, withEndTime: bool): Yielded
    decreases |items|
  {
    if items == [] then Done([])
    else Then(ContextRecord(items[0], entry, base, withEndTime), ContextRecords(items[1..], entry, base, withEndTime))
  }

  /** One entry of `values`: a dict value is broken down by key, anything else
      makes the entry itself the record. */
  function InsightValue(entry: Json, base: Dict, withEndTime: bool): Yielded
  {
    match Index(entry, "value")
    case Err(e) => Raise(e)
    case Ok(v) =>
      if v.Obj? then ContextRecords(v.fields, entry.fields, base, withEndTime)
      else Done([Update(entry.fields, base)])
  }

  function InsightValues(entries: seq<Json>, base: Dict, withEndTime: bool): Yielded
    decreases |entries|
  {
    if entries == [] then Done([])
    else Then(InsightValue(entries[0], base, withEndTime), InsightValues(entries[1..], base, withEndTime))
  }

  /** `if "values" in insight: for values in insight["values"]: ...` */
  function InsightWithBase(insight: Json, base: Dict, withEndTime: bool): Yielded
  {
    match Contains(insight, "values")
    case Err(e) => Raise(e)
    case Ok(false) => Done([])
    case Ok(true) =>
      match Index(insight, "values")
      case Err(e) => Raise(e)
      case Ok(vs) =>
        match Iter(vs)
        case Err(e) => Raise(e)
        case Ok(entries) => InsightValues(entries, base, withEndTime)
  }

  // ---------------------------------------------------------------------------
  // PageInsights.parse_response

  /** `base_item` of a page insight row. */
  function PageInsightBase(row: Json): (r: Result<Dict>)
    ensures r.Ok? <==> row.Obj? && Has(row.fields, "name") && Has(row.fields, "period")
                       && Has(row.fields, "title") && Has(row.fields, "id")
    ensures r.Ok? ==> DistinctKeys(r.value) && Keys(r.value) == ["name", "period", "title", "id"]
    ensures r.Ok? ==> forall k :: Has(r.value, k) ==> Get(r.value, k) == Get(row.fields, k)
  {
    match Lookup(row, ["name", "period", "title", "id"])
    case Err(e) => Err(e)
    case Ok(vs) =>
      var base := [("name", vs[0]), ("period", vs[1]), ("title", vs[2]), ("id", vs[3])];
      DistinctGet(base);
      Ok(base)
  }

  function PageInsightRow(row: Json): Yielded
  {
    match PageInsightBase(row)
    case Err(e) => Raise(e)
    case Ok(base) => InsightWithBase(row, base, true)
  }

  function PageInsightRows(rows: seq<Json>): Yielded
    decreases |rows|
  {
    if rows == [] then Done([])
    else Then(PageInsightRow(rows[0]), PageInsightRows(rows[1..]))
  }

  function PageInsightsResponse(response: Json): Yielded
  {
    match DataRows(response)
    case Err(e) => Raise(e)
    case Ok(rows) => PageInsightRows(rows)
  }

  // ---------------------------------------------------------------------------
  // PostInsights.parse_response

  /** `base_item` of one insight of a post. */
  function PostInsightBase(row: Json, insight: Json, pageId: string): (r: Result<Dict>)
    ensures r.Ok? <==> row.Obj? && Has(row.fields, "id") && Has(row.fields, "created_time")
                       && insight.Obj? && Has(insight.fields, "name") && Has(insight.fields, "period")
                       && Has(insight.fields, "title") && Has(insight.fields, "description")
                       && Has(insight.fields, "id")
    ensures r.Ok? ==> DistinctKeys(r.value)
    ensures r.Ok? ==> Keys(r.value) == ["post_id", "page_id", "post_created_time", "name", "period", "title", "description", "id"]
    ensures r.Ok? ==> Get(r.value, "post_id") == Get(row.fields, "id")
    ensures r.Ok? ==> Get(r.value, "page_id") == Some(Str(pageId))
    ensures r.Ok? ==> Get(r.value, "post_created_time") == Get(row.fields, "created_time")
    ensures r.Ok? ==> Get(r.value, "name") == Get(insight.fields, "name")
    ensures r.Ok? ==> Get(r.value, "period") == Get(insight.fields, "period")
    ensures r.Ok? ==> Get(r.value, "title") == Get(insight.fields, "title")
    ensures r.Ok? ==> Get(r.value, "description") == Get(insight.fields, "description")
    ensures r.Ok? ==> Get(r.value, "id") == Get(insight.fields, "id")
  {
    match Lookup(row, ["id", "created_time"])
    case Err(e) => Err(e)
    case Ok(rv) =>
      match Lookup(insight, ["name", "period", "title", "description", "id"])
      case Err(e) => Err(e)
      case Ok(iv) =>
        var base := [("post_id", rv[0]), ("page_id", Str(pageId)), ("post_created_time", rv[1]),
                     ("name", iv[0]), ("period", iv[1]), ("title", iv[2]), ("description", iv[3]), ("id", iv[4])];
        DistinctGet(base);
        assert base[2].0 == "post_created_time" && base[3].0 == "name" && base[4].0 == "period";
        assert base[5].0 == "title" && base[6].0 == "description" && base[7].0 == "id";
        Ok(base)
  }

  function PostInsight(insight: Json, row: Json, pageId: string): Yielded
  {
    match PostInsightBase(row, insight, pageId)
    case Err(e) => Raise(e)
    case Ok(base) => InsightWithBase(insight, base, false)
  }

  function PostInsightList(insights: seq<Json>, row: Json, pageId: string): Yielded
    decreases |insights|
  {
    if insights == [] then Done([])
    else Then(PostInsight(insights[0], row, pageId), PostInsightList(insights[1..], row, pageId))
  }

  function PostInsightRow(row: Json, pageId: string): Yielded
  {
    match Items(row, "insights")
    case Err(e) => Raise(e)
    case Ok(insights) => PostInsightList(insights, row, pageId)
  }

  function PostInsightRows(rows: seq<Json>, pageId: string): Yielded
    decreases |rows|
  {
    if rows == [] then Done([])
    else Then(PostInsightRow(rows[0], pageId), PostInsightRows(rows[1..], pageId))
  }

  function PostInsightsResponse(response: Json, pageId: string): Yielded
  {
    match DataRows(response)
    case Err(e) => Raise(e)
    case Ok(rows) => PostInsightRows(rows, pageId)
  }

  // ---------------------------------------------------------------------------
  // get_next_page_token and post_process of FacebookPagesStream

  /** `resp_json["paging"]["next"]` when `"paging" in resp_json and "next" in
      resp_json["paging"]`, else None. */
  function NextPageLink(response: Json): (r: Result<Json>)
    ensures response.Obj? && !Has(response.fields, "paging") ==> r == Ok(Null)
    ensures response.Obj? && Has(response.fields, "paging") && Get(response.fields, "paging").value.Obj? ==>
      var paging := Get(response.fields, "paging").value.fields;
      r == if Has(paging, "next") then Ok(Get(paging, "next").value) else Ok(Null)
    ensures r.Ok? && r.value != Null ==>
      response.Obj? && Has(response.fields, "paging") && Index(Get(response.fields, "paging").value, "next") == r
  {
    match Contains(response, "paging")
    case Err(e) => Err(e)
    case Ok(false) => Ok(Null)
    case Ok(true) =>
      match Index(response, "paging")
      case Err(e) => Err(e)
      case Ok(paging) =>
        match Contains(paging, "next")
        case Err(e) => Err(e)
        case Ok(false) => Ok(Null)
        case Ok(true) => Index(paging, "next")
  }

  /** The base `post_process`: copy `state["context"]["page_id"]` into the row
      when both keys exist. */
  function PostProcessContext(row: Dict, state: Dict): (r: Result<Dict>)
    ensures !Has(state, "context") ==> r == Ok(row)
    ensures Has(state, "context") && Get(state, "context").value.Obj? ==>
      var context := Get(state, "context").value.fields;
      r == if Has(context, "page_id") then Ok(Set(row, "page_id", Get(context, "page_id").value)) else Ok(row)
  {
    match Get(state, "context")
    case None => Ok(row)
    case Some(context) =>
      match Contains(context, "page_id")
      case Err(e) => Err(e)
      case Ok(false) => Ok(row)
      case Ok(true) =>
        match Index(context, "page_id")
        case Err(e) => Err(e)
        case Ok(v) => Ok(Set(row, "page_id", v))
  }

  /** The base parameters of a request, as `FacebookPagesStream.get_url_params`
      builds them: the parsed query of a truthy next-page token, else
      `since` (when there is a starting timestamp), `access_token` and `limit`. */
  function BaseParams(pageId: string, nextPageToken: Json, startingTimestamp: Option<int>,
                      accessTokens: map<string, string>, parseQuery: Json -> Dict): (r: Result<Dict>)
    ensures Truthy(nextPageToken) ==> r == Ok(parseQuery(nextPageToken))
    ensures !Truthy(nextPageToken) ==> (r.Ok? <==> pageId in accessTokens)
    ensures r.Err? ==> r.error == KeyError
    ensures !Truthy(nextPageToken) && r.Ok? ==>
      && Get(r.value, "since") == (if startingTimestamp.Some? then Some(Int(startingTimestamp.value)) else None)
      && Get(r.value, "access_token") == Some(Str(accessTokens[pageId]))
      && Get(r.value, "limit") == Some(Int(PAGE_LIMIT))
  {
    if Truthy(nextPageToken) then Ok(parseQuery(nextPageToken))
    else if pageId !in accessTokens then Err(KeyError)
    else
      var params := if startingTimestamp.Some? then Set([], "since", Int(startingTimestamp.value)) else [];
      var params := Set(params, "access_token", Str(accessTokens[pageId]));
      Ok(Set(params, "limit", Int(PAGE_LIMIT)))
  }

  /** The keys of the base parameters of a first page, in order. */
  lemma BaseParamsKeys(pageId: string, startingTimestamp: Option<int>,
                       accessTokens: map<string, string>, parseQuery: Json -> Dict)
    requires pageId in accessTokens
    ensures BaseParams(pageId, Null, startingTimestamp, accessTokens, parseQuery).Ok?
    ensures Keys(BaseParams(pageId, Null, startingTimestamp, accessTokens, parseQuery).value)
         == (if startingTimestamp.Some? then ["since"] else []) + ["access_token", "limit"]
  {
    var p0: Dict := if startingTimestamp.Some? then Set([], "since", Int(startingTimestamp.value)) else [];
    if startingTimestamp.Some? {
      SetKeys([], "since", Int(startingTimestamp.value));
    }
    NotInKeys(p0, "access_token");
    SetKeys(p0, "access_token", Str(accessTokens[pageId]));
    var p1 := Set(p0, "access_token", Str(accessTokens[pageId]));
    NotInKeys(p1, "limit");
    SetKeys(p1, "limit", Int(PAGE_LIMIT));
  }

  // ---------------------------------------------------------------------------
  // The stream object

  class FacebookPagesStream {
    const kind: StreamKind
    /** The config's `columns`, when given. */
    const configColumns: Option<seq<string>>
    /** The property names of the stream's schema, in schema order. */
    const schemaProperties: seq<string>
    var name: string
    var tapStreamId: string
    var metrics: seq<string>
    var partitions: seq<Partition>
    var accessTokens: map<string, string>
    /** Unset until `get_url_params` runs. */
    var pageId: Option<string>

    constructor (kind: StreamKind, name: string, configColumns: Option<seq<string>>, schemaProperties: seq<string>)
      ensures this.kind == kind && this.name == name && tapStreamId == ClassStreamId(kind)
      ensures this.configColumns == configColumns && this.schemaProperties == schemaProperties
      ensures metrics == [] && partitions == [] && accessTokens == map[] && pageId == None
    {
      this.kind := kind;
      this.name := name;
      this.configColumns := configColumns;
      this.schemaProperties := schemaProperties;
      tapStreamId := ClassStreamId(kind);
      metrics := [];
      partitions := [];
      accessTokens := map[];
      pageId := None;
    }

    /** The `fields` of Page and Posts: the configured columns if any, else
        the schema's property names, joined by commas. */
    function ColumnFields(): string
    {
      if configColumns.Some? then Join(configColumns.value, ',') else Join(schemaProperties, ',')
    }

    /** The `fields` a first-page request of this stream adds. */
    function FirstPageFields(): string
      reads this`metrics
    {
      match kind
      case Page => ColumnFields()
      case Posts => ColumnFields()
      case PostTaggedProfile => "id,created_time,to"
      case PostAttachments => "id,created_time,attachments"
      case PageInsights => ""  // unused: PageInsights sends `metric`, never `fields`
      case PostInsights => "id,created_time,insights.metric(" + Join(metrics, ',') + ")"
    }

    /** The parameters `get_url_params` returns for this stream's class. */
    function UrlParams(partition: Partition, nextPageToken: Json, startingTimestamp: Option<int>,
                       parseQuery: Json -> Dict): (r: Result<Dict>)
      reads this`accessTokens, this`metrics
      ensures r.Err? <==> !Truthy(nextPageToken) && partition.pageId !in accessTokens
      ensures Truthy(nextPageToken) && kind in {Posts, PostTaggedProfile, PostAttachments, PostInsights} ==>
        r == Ok(parseQuery(nextPageToken))
      ensures Truthy(nextPageToken) && kind == PageInsights ==>
        r == Ok(Set(parseQuery(nextPageToken), "metric", Str(Join(metrics, ','))))
      ensures Truthy(nextPageToken) && kind == Page ==>
        r == Ok(Set(parseQuery(nextPageToken), "fields", Str(ColumnFields())))
      ensures !Truthy(nextPageToken) && r.Ok? ==>
        && Get(r.value, "access_token") == Some(Str(accessTokens[partition.pageId]))
        && Get(r.value, "limit") == Some(Int(PAGE_LIMIT))
        && Get(r.value, "since") == (if startingTimestamp.Some? then Some(Int(startingTimestamp.value)) else None)
        && (kind == PageInsights ==> Get(r.value, "metric") == Some(Str(Join(metrics, ','))))
        && (kind != PageInsights ==> Get(r.value, "fields") == Some(Str(FirstPageFields())))
    {
      match BaseParams(partition.pageId, nextPageToken, startingTimestamp, accessTokens, parseQuery)
      case Err(e) => Err(e)
      case Ok(params) =>
        if kind == PageInsights then Ok(Set(params, "metric", Str(Join(metrics, ','))))
        else if kind == Page || !Truthy(nextPageToken) then Ok(Set(params, "fields", Str(FirstPageFields())))
        else Ok(params)
    }

    /** A first-page request carries exactly these parameters, in this order. */
    lemma FirstPageKeys(partition: Partition, startingTimestamp: Option<int>, parseQuery: Json -> Dict)
      requires partition.pageId in accessTokens
      ensures UrlParams(partition, Null, startingTimestamp, parseQuery).Ok?
      ensures Keys(UrlParams(partition, Null, startingTimestamp, parseQuery).value)
           == (if startingTimestamp.Some? then ["since"] else []) + ["access_token", "limit"]
              + (if kind == PageInsights then ["metric"] else ["fields"])
    {
      BaseParamsKeys(partition.pageId, startingTimestamp, accessTokens, parseQuery);
      var base := BaseParams(partition.pageId, Null, startingTimestamp, accessTokens, parseQuery).value;
      if kind == PageInsights {
        NotInKeys(base, "metric");
        SetKeys(base, "metric", Str(Join(metrics, ',')));
      } else {
        NotInKeys(base, "fields");
        SetKeys(base, "fields", Str(FirstPageFields()));
      }
    }

    /** `get_url_params`: records the partition's page id, then builds the
        parameters by successive updates. */
    method GetUrlParams(partition: Partition, nextPageToken: Json, startingTimestamp: Option<int>,
                        parseQuery: Json -> Dict) returns (r: Result<Dict>)
      modifies this`pageId
      ensures pageId == Some(partition.pageId)
      ensures r == UrlParams(partition, nextPageToken, startingTimestamp, parseQuery)
    {
      pageId := Some(partition.pageId);
      if Truthy(nextPageToken) {
        r := Ok(parseQuery(nextPageToken));
      } else {
        var params: Dict := [];
        if startingTimestamp.Some? {
          params := Set(params, "since", Int(startingTimestamp.value));
        }
        if partition.pageId !in accessTokens {
          return Err(KeyError);
        }
        params := Set(params, "access_token", Str(accessTokens[partition.pageId]));
        params := Set(params, "limit", Int(PAGE_LIMIT));
        r := Ok(params);
      }
      var params := r.value;
      if kind == Page {
        params := Set(params, "fields", Str(ColumnFields()));
      } else if kind == PageInsights {
        params := Set(params, "metric", Str(Join(metrics, ',')));
      } else if !Truthy(nextPageToken) {
        params := Set(params, "fields", Str(FirstPageFields()));
      }
      r := Ok(params);
    }

    /** `get_next_page_token`; PageInsights never pages. */
    function GetNextPageToken(response: Json): (r: Result<Json>)
      ensures kind == PageInsights ==> r == Ok(Null)
      ensures kind != PageInsights ==> r == NextPageLink(response)
    {
      if kind == PageInsights then Ok(Null) else NextPageLink(response)
    }

    /** `post_process`; Page returns the row untouched. */
    function PostProcess(row: Dict, state: Dict): (r: Result<Dict>)
      ensures kind == Page ==> r == Ok(row)
      ensures kind != Page ==> r == PostProcessContext(row, state)
    {
      if kind == Page then Ok(row) else PostProcessContext(row, state)
    }

    /** What `parse_response` of this stream's class yields. */
    function ResponseRecords(response: Json): Yielded
      requires kind != Page
      requires kind != PageInsights ==> pageId.Some?
      reads this`pageId
    {
      match kind
      case Posts => PostsResponse(response, pageId.value)
      case PostTaggedProfile => TaggedResponse(response, pageId.value)
      case PostAttachments => AttachmentsResponse(response, pageId.value)
      case PageInsights => PageInsightsResponse(response)
      case PostInsights => PostInsightsResponse(response, pageId.value)
    }

    /** `parse_response`, for every class that overrides it (Page keeps the
        framework's own parser). */
    method ParseResponse(response: Json) returns (r: Yielded)
      requires kind != Page
      requires kind != PageInsights ==> pageId.Some?
      ensures r == ResponseRecords(response)
    {
      if kind == Posts {
        r := ParsePosts(response, pageId.value);
      } else if kind == PostTaggedProfile {
        r := ParseTagged(response, pageId.value);
      } else if kind == PostAttachments {
        r := ParseAttachments(response, pageId.value);
      } else if kind == PageInsights {
        r := ParsePageInsights(response);
      } else {
        r := ParsePostInsights(response, pageId.value);
      }
    }
  }

  // ---------------------------------------------------------------------------
  // The generator loops.  Each loop level is a method that appends what it
  // yields to `out`; an exception ends it with the records yielded so far.

  method ParsePosts(response: Json, pageId: string) returns (r: Yielded)
    ensures r == PostsResponse(response, pageId)
  {
    match DataRows(response) {
      case Err(e) => r := Raise(e);
      case Ok(rows) =>
        var out: seq<Dict> := [];
        var i := 0;
        while i < |rows|
          invariant 0 <= i <= |rows|
          invariant PostsRecords(rows, pageId) == Then(Done(out), PostsRecords(rows[i..], pageId))
        {
          assert rows[i..][1..] == rows[i + 1..];
          match rows[i] {
            case Obj(row) =>
              out := out + [Set(row, "page_id", Str(pageId))];
            case _ =>
              return Yielded(out, Some(TypeError));
          }
          i := i + 1;
        }
        r := Done(out);
    }
  }

  method EmitWithParent(out: seq<Dict>, items: seq<Json>, parent: Dict) returns (r: Yielded)
    ensures r == Then(Done(out), WithParent(items, parent))
  {
    var acc := out;
    var i := 0;
    while i < |items|
      invariant 0 <= i <= |items|
      invariant Then(Done(out), WithParent(items, parent)) == Then(Done(acc), WithParent(items[i..], parent))
    {
      assert items[i..][1..] == items[i + 1..];
      match items[i] {
        case Obj(item) =>
          acc := acc + [Update(item, parent)];
        case _ =>
          return Yielded(acc, Some(AttributeError));
      }
      i := i + 1;
    }
    r := Done(acc);
  }

  /** The body of the loop over posts: one post's tagged profiles. */
  method EmitTaggedRow(out: seq<Dict>, row: Json, pageId: string) returns (r: Yielded)
    ensures r == Then(Done(out), TaggedRow(row, pageId))
  {
    match ParentInfo(pageId, row) {
      case Err(e) => r := Yielded(out, Some(e));
      case Ok(parent) =>
        if !Has(row.fields, "to") {
          assert out + [] == out;
          r := Done(out);
        } else {
          match Items(row, "to") {
            case Err(e) => r := Yielded(out, Some(e));
            case Ok(profiles) => r := EmitWithParent(out, profiles, parent);
          }
        }
    }
  }

  method ParseTagged(response: Json, pageId: string) returns (r: Yielded)
    ensures r == TaggedResponse(response, pageId)
  {
    match DataRows(response) {
      case Err(e) => r := Raise(e);
      case Ok(rows) =>
        var out: seq<Dict> := [];
        var i := 0;
        while i < |rows|
          invariant 0 <= i <= |rows|
          invariant TaggedRecords(rows, pageId) == Then(Done(out), TaggedRecords(rows[i..], pageId))
        {
          assert rows[i..][1..] == rows[i + 1..];
          ThenAssoc(Done(out), TaggedRow(rows[i], pageId), TaggedRecords(rows[i + 1..], pageId));
          var step := EmitTaggedRow(out, rows[i], pageId);
          if step.error.Some? {
            return step;
          }
          out := step.records;
          i := i + 1;
        }
        r := Done(out);
    }
  }

  /** The body of the loop over attachments: sub-attachments, then the
      attachment with `subattachments` popped. */
  method EmitAttachment(out: seq<Dict>, attachment: Json, parent: Dict) returns (r: Yielded)
    ensures r == Then(Done(out), AttachmentRecords(attachment, parent))
  {
    match Contains(attachment, "subattachments") {
      case Err(e) => r := Yielded(out, Some(e));
      case Ok(hasSubs) =>
        if hasSubs {
          match Items(attachment, "subattachments") {
            case Err(e) => r := Yielded(out, Some(e));
            case Ok(subs) =>
              var step := EmitWithParent(out, subs, parent);
              var last := Done([Update(Remove(attachment.fields, "subattachments"), parent)]);
              ThenAssoc(Done(out), WithParent(subs, parent), last);
              if step.error.Some? {
                return step;
              }
              r := Done(step.records + last.records);
          }
        } else {
          match attachment {
            case Obj(a) => r := Done(out + [Update(a, parent)]);
            case _ => r := Yielded(out, Some(AttributeError));
          }
        }
    }
  }

  method EmitAttachmentList(out: seq<Dict>, attachments: seq<Json>, parent: Dict) returns (r: Yielded)
    ensures r == Then(Done(out), AttachmentList(attachments, parent))
  {
    var acc := out;
    var i := 0;
    while i < |attachments|
      invariant 0 <= i <= |attachments|
      invariant Then(Done(out), AttachmentList(attachments, parent))
             == Then(Done(acc), AttachmentList(attachments[i..], parent))
    {
      assert attachments[i..][1..] == attachments[i + 1..];
      ThenAssoc(Done(acc), AttachmentRecords(attachments[i], parent), AttachmentList(attachments[i + 1..], parent));
      var step := EmitAttachment(acc, attachments[i], parent);
      if step.error.Some? {
        return step;
      }
      acc := step.records;
      i := i + 1;
    }
    r := Done(acc);
  }

  /** The body of the loop over posts: one post's attachments. */
  method EmitAttachmentRow(out: seq<Dict>, row: Json, pageId: string) returns (r: Yielded)
    ensures r == Then(Done(out), AttachmentRow(row, pageId))
  {
    match ParentInfo(pageId, row) {
      case Err(e) => r := Yielded(out, Some(e));
      case Ok(parent) =>
        if !Has(row.fields, "attachments") {
          assert out + [] == out;
          r := Done(out);
        } else {
          match Items(row, "attachments") {
            case Err(e) => r := Yielded(out, Some(e));
            case Ok(attachments) => r := EmitAttachmentList(out, attachments, parent);
          }
        }
    }
  }

  method ParseAttachments(response: Json, pageId: string) returns (r: Yielded)
    ensures r == AttachmentsResponse(response, pageId)
  {
    match DataRows(response) {
      case Err(e) => r := Raise(e);
      case Ok(rows) =>
        var out: seq<Dict> := [];
        var i := 0;
        while i < |rows|
          invariant 0 <= i <= |rows|
          invariant AttachmentRows(rows, pageId) == Then(Done(out), AttachmentRows(rows[i..], pageId))
        {
          assert rows[i..][1..] == rows[i + 1..];
          ThenAssoc(Done(out), AttachmentRow(rows[i], pageId), AttachmentRows(rows[i + 1..], pageId));
          var step := EmitAttachmentRow(out, rows[i], pageId);
          if step.error.Some? {
            return step;
          }
          out := step.records;
          i := i + 1;
        }
        r := Done(out);
    }
  }

  method EmitContextRecords(out: seq<Dict>, items: Dict, entry: Dict, base: Dict, withEndTime: bool)
    returns (r: Yielded)
    ensures r == Then(Done(out), ContextRecords(items, entry, base, withEndTime))
  {
    var acc := out;
    var i := 0;
    while i < |items|
      invariant 0 <= i <= |items|
      invariant Then(Done(out), ContextRecords(items, entry, base, withEndTime))
             == Then(Done(acc), ContextRecords(items[i..], entry, base, withEndTime))
    {
      assert items[i..][1..] == items[i + 1..];
      var (key, value) := items[i];
      if withEndTime {
        match Get(entry, "end_time") {
          case None => return Yielded(acc, Some(KeyError));
          case Some(t) =>
            acc := acc + [Update([("context", Str(key)), ("value", value), ("end_time", t)], base)];
        }
      } else {
        acc := acc + [Update([("context", Str(key)), ("value", value)], base)];
      }
      i := i + 1;
    }
    r := Done(acc);
  }

  /** The body of the loop over `values`: one entry. */
  method EmitInsightValue(out: seq<Dict>, entry: Json, base: Dict, withEndTime: bool) returns (r: Yielded)
    ensures r == Then(Done(out), InsightValue(entry, base, withEndTime))
  {
    match Index(entry, "value") {
      case Err(e) => r := Yielded(out, Some(e));
      case Ok(v) =>
        if v.Obj? {
          r := EmitContextRecords(out, v.fields, entry.fields, base, withEndTime);
        } else {
          r := Done(out + [Update(entry.fields, base)]);
        }
    }
  }

  method EmitInsightValues(out: seq<Dict>, entries: seq<Json>, base: Dict, withEndTime: bool)
    returns (r: Yielded)
    ensures r == Then(Done(out), InsightValues(entries, base, withEndTime))
  {
    var acc := out;
    var i := 0;
    while i < |entries|
      invariant 0 <= i <= |entries|
      invariant Then(Done(out), InsightValues(entries, base, withEndTime))
             == Then(Done(acc), InsightValues(entries[i..], base, withEndTime))
    {
      assert entries[i..][1..] == entries[i + 1..];
      ThenAssoc(Done(acc), InsightValue(entries[i], base, withEndTime), InsightValues(entries[i + 1..], base, withEndTime));
      var step := EmitInsightValue(acc, entries[i], base, withEndTime);
      if step.error.Some? {
        return step;
      }
      acc := step.records;
      i := i + 1;
    }
    r := Done(acc);
  }

  method EmitInsightWithBase(out: seq<Dict>, insight: Json, base: Dict, withEndTime: bool)
    returns (r: Yielded)
    ensures r == Then(Done(out), InsightWithBase(insight, base, withEndTime))
  {
    match Contains(insight, "values") {
      case Err(e) => r := Yielded(out, Some(e));
      case Ok(hasValues) =>
        if !hasValues {
          assert out + [] == out;
          r := Done(out);
        } else {
          match Index(insight, "values") {
            case Err(e) => r := Yielded(out, Some(e));
            case Ok(vs) =>
              match Iter(vs) {
                case Err(e) => r := Yielded(out, Some(e));
                case Ok(entries) => r := EmitInsightValues(out, entries, base, withEndTime);
              }
          }
        }
    }
  }

  /** The body of the loop over page insight rows. */
  method EmitPageInsightRow(out: seq<Dict>, row: Json) returns (r: Yielded)
    ensures r == Then(Done(out), PageInsightRow(row))
  {
    match PageInsightBase(row) {
      case Err(e) => r := Yielded(out, Some(e));
      case Ok(base) => r := EmitInsightWithBase(out, row, base, true);
    }
  }

  method ParsePageInsights(response: Json) returns (r: Yielded)
    ensures r == PageInsightsResponse(response)
  {
    match DataRows(response) {
      case Err(e) => r := Raise(e);
      case Ok(rows) =>
        var out: seq<Dict> := [];
        var i := 0;
        while i < |rows|
          invariant 0 <= i <= |rows|
          invariant PageInsightRows(rows) == Then(Done(out), PageInsightRows(rows[i..]))
        {
          assert rows[i..][1..] == rows[i + 1..];
          ThenAssoc(Done(out), PageInsightRow(rows[i]), PageInsightRows(rows[i + 1..]));
          var step := EmitPageInsightRow(out, rows[i]);
          if step.error.Some? {
            return step;
          }
          out := step.records;
          i := i + 1;
        }
        r := Done(out);
    }
  }

  /** The body of the loop over a post's insights. */
  method EmitPostInsight(out: seq<Dict>, insight: Json, row: Json, pageId: string) returns (r: Yielded)
    ensures r == Then(Done(out), PostInsight(insight, row, pageId))
  {
    match PostInsightBase(row, insight, pageId) {
      case Err(e) => r := Yielded(out, Some(e));
      case Ok(base) => r := EmitInsightWithBase(out, insight, base, false);
    }
  }

  method EmitPostInsightList(out: seq<Dict>, insights: seq<Json>, row: Json, pageId: string)
    returns (r: Yielded)
    ensures r == Then(Done(out), PostInsightList(insights, row, pageId))
  {
    var acc := out;
    var i := 0;
    while i < |insights|
      invariant 0 <= i <= |insights|
      invariant Then(Done(out), PostInsightList(insights, row, pageId))
             == Then(Done(acc), PostInsightList(insights[i..], row, pageId))
    {
      assert insights[i..][1..] == insights[i + 1..];
      ThenAssoc(Done(acc), PostInsight(insights[i], row, pageId), PostInsightList(insights[i + 1..], row, pageId));
      var step := EmitPostInsight(acc, insights[i], row, pageId);
      if step.error.Some? {
        return step;
      }
      acc := step.records;
      i := i + 1;
    }
    r := Done(acc);
  }

  /** The body of the loop over posts: every insight of one post. */
  method EmitPostInsightRow(out: seq<Dict>, row: Json, pageId: string) returns (r: Yielded)
    ensures r == Then(Done(out), PostInsightRow(row, pageId))
  {
    match Items(row, "insights") {
      case Err(e) => r := Yielded(out, Some(e));
      case Ok(insights) => r := EmitPostInsightList(out, insights, row, pageId);
    }
  }

  method ParsePostInsights(response: Json, pageId: string) returns (r: Yielded)
    ensures r == PostInsightsResponse(response, pageId)
  {
    match DataRows(response) {
      case Err(e) => r := Raise(e);
      case Ok(rows) =>
        var out: seq<Dict> := [];
        var i := 0;
        while i < |rows|
          invariant 0 <= i <= |rows|
          invariant PostInsightRows(rows, pageId) == Then(Done(out), PostInsightRows(rows[i..], pageId))
        {
          assert rows[i..][1..] == rows[i + 1..];
          ThenAssoc(Done(out), PostInsightRow(rows[i], pageId), PostInsightRows(rows[i + 1..], pageId));
          var step := EmitPostInsightRow(out, rows[i], pageId);
          if step.error.Some? {
            return step;
          }
          out := step.records;
          i := i + 1;
        }
        r := Done(out);
    }
  }
}
