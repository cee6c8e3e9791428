# tap-facebook-pages in Dafny

A model of the request-building and response-flattening core of
tap-facebook-pages. That connector extracts a Facebook page, its posts, the
posts' attachments and tagged profiles, and page and post insights from the
Graph API, and emits them as flat records.

The model has four modules.

- `JsonValues` (`json.dfy`) holds decoded JSON values. Objects are ordered
  association lists, because Python dicts keep insertion order. The module
  also writes out the Python operations the connector applies to them: `in`,
  subscripting, iteration, item assignment, `dict.update`, `dict.pop` and
  `str.join`. Each one raises the same `KeyError`, `TypeError` or
  `AttributeError` Python would.
- `Streams` (`streams.dfy`) holds the stream classes. The six Python
  subclasses become one class, `FacebookPagesStream`, which has a `kind` tag.
  - `GetUrlParams` builds the query parameters and records `pageId`, which
    `parse_response` later reads.
  - `GetNextPageToken` and `PostProcess` are the other overrides.
  - Each `parse_response` generator has two forms. One is a specification
    function, such as `PostsRecords`. The other is an imperative method with
    the same loops, such as `ParsePosts`, proved equal to that function. The
    result of a generator is a `Yielded`: the records yielded, and the
    exception that ended it early, if any.
- `StreamProperties` (`properties.dfy`) proves the flattening rules. It covers
  record counts, order, the fields every record carries, and which inputs
  raise.
- `FacebookTap` (`tap.dfy`) holds the tap object:
  - the token exchange loop and the partitions of `__init__`;
  - `discover_streams`;
  - the catalog filter of `load_streams`, with its filter lemmas.

`streams.py` and `tap.py` send only `since`, `access_token`, `limit`, `fields`
and `metric`. They have no `until` window, no window halving, no retries and no
401/403 handling, so the model has none.

## Model

| member | source | states |
|---|---|---|
| `Streams.ParentInfo` | tap_facebook_pages/streams.py:130-134 | the parent dict exists exactly when the post has `id` and `created_time`; it has three distinct keys: `page_id` is the stream's page, `post_id` is the post id, `post_created_time` is its creation time |
| `Streams.PageInsightBase` | tap_facebook_pages/streams.py:197-202 | the base item exists exactly when the row has `name`, `period`, `title` and `id`; its keys are those four, in that order, with the row's values |
| `Streams.PostInsightBase` | tap_facebook_pages/streams.py:240-249 | the base item exists exactly when the post has `id` and `created_time` and the insight has its five keys; its eight keys come in display order, with values taken from the post, the page id and the insight |
| `Streams.NextPageLink` | tap_facebook_pages/streams.py:51-55 | without `paging` the token is None; with a `paging` dict it is `paging.next` when that key exists, else None; a non-None token is always `response["paging"]["next"]` |
| `Streams.PostProcessContext` | tap_facebook_pages/streams.py:57-60 | without `context` the row is unchanged; with a dict `context` the row gets `page_id := context["page_id"]` when that key exists, else stays unchanged |
| `Streams.BaseParams` | tap_facebook_pages/streams.py:35-49 | a truthy token gives exactly its parsed query; otherwise the result is Ok iff the page has a token, with `access_token` = that token, `limit` = 100, and `since` present exactly when a starting timestamp exists; the only error is KeyError |
| `Streams.BaseParamsKeys` | tap_facebook_pages/streams.py:40-47 | a first page's base parameters have exactly the keys `since` (when there is a timestamp), `access_token` and `limit`, in that order |
| `Streams.FacebookPagesStream.constructor` | tap_facebook_pages/streams.py:25-29 | a new stream has its class's `tap_stream_id`, no metrics, partitions or tokens, and no page id yet |
| `Streams.FacebookPagesStream.UrlParams` | tap_facebook_pages/streams.py:72-234 | it fails iff there is no token and the page has no access token; on continuation, Posts, PostTaggedProfile, PostAttachments and PostInsights add nothing, PageInsights adds `metric` and Page adds `fields`; a first page carries `access_token`, `limit`, `since`, and `metric` (PageInsights) or the class's `fields` |
| `Streams.FacebookPagesStream.FirstPageKeys` | tap_facebook_pages/streams.py:40-49 | a first-page request has exactly the keys `since` (when there is a timestamp), `access_token`, `limit`, then `metric` or `fields`, in that order |
| `Streams.FacebookPagesStream.GetUrlParams` | tap_facebook_pages/streams.py:35-49 | records `partition["page_id"]` as the stream's page id in every case, and returns UrlParams |
| `Streams.FacebookPagesStream.GetNextPageToken` | tap_facebook_pages/streams.py:191-192 | PageInsights never pages; every other class returns NextPageLink |
| `Streams.FacebookPagesStream.PostProcess` | tap_facebook_pages/streams.py:79-80 | Page returns the row untouched; every other class applies PostProcessContext |
| `Streams.FacebookPagesStream.ParseResponse` | tap_facebook_pages/streams.py:103-262 | yields exactly what the specification function of the stream's class yields |
| `Streams.ParsePosts` | tap_facebook_pages/streams.py:103-107 | the loop yields exactly PostsResponse |
| `Streams.EmitWithParent` | tap_facebook_pages/streams.py:136-138 | the loop over profiles or sub-attachments appends exactly WithParent's records |
| `Streams.EmitTaggedRow` | tap_facebook_pages/streams.py:130-138 | one post's body appends exactly TaggedRow |
| `Streams.ParseTagged` | tap_facebook_pages/streams.py:127-138 | the loop yields exactly TaggedResponse |
| `Streams.EmitAttachment` | tap_facebook_pages/streams.py:168-174 | one attachment's body appends exactly AttachmentRecords |
| `Streams.EmitAttachmentList` | tap_facebook_pages/streams.py:167-174 | the loop over attachments appends exactly AttachmentList |
| `Streams.EmitAttachmentRow` | tap_facebook_pages/streams.py:161-174 | one post's body appends exactly AttachmentRow |
| `Streams.ParseAttachments` | tap_facebook_pages/streams.py:158-174 | the loop yields exactly AttachmentsResponse |
| `Streams.EmitContextRecords` | tap_facebook_pages/streams.py:206-213 | the loop over breakdown keys appends exactly ContextRecords |
| `Streams.EmitInsightValue` | tap_facebook_pages/streams.py:205-216 | one entry's body appends exactly InsightValue |
| `Streams.EmitInsightValues` | tap_facebook_pages/streams.py:204-216 | the loop over `values` appends exactly InsightValues |
| `Streams.EmitInsightWithBase` | tap_facebook_pages/streams.py:203-216 | the `if "values" in ...` block appends exactly InsightWithBase |
| `Streams.EmitPageInsightRow` | tap_facebook_pages/streams.py:197-216 | one row's body appends exactly PageInsightRow |
| `Streams.ParsePageInsights` | tap_facebook_pages/streams.py:194-216 | the loop yields exactly PageInsightsResponse |
| `Streams.EmitPostInsight` | tap_facebook_pages/streams.py:240-262 | one insight's body appends exactly PostInsight |
| `Streams.EmitPostInsightList` | tap_facebook_pages/streams.py:239-262 | the loop over a post's insights appends exactly PostInsightList |
| `Streams.EmitPostInsightRow` | tap_facebook_pages/streams.py:239 | one post's body appends exactly PostInsightRow |
| `Streams.ParsePostInsights` | tap_facebook_pages/streams.py:236-262 | the loop yields exactly PostInsightsResponse |
| `JsonValues.SplitJoin` | tap_facebook_pages/streams.py:74-75 | the comma-joined `fields` value splits back into the columns when the list is non-empty and no column holds a comma (an empty list joins to `""`, which splits to `[""]`) |
| `StreamProperties.PostsRecordsShape` | tap_facebook_pages/streams.py:103-107 | Posts raises iff some row is not a dict, and then raises TypeError; otherwise it gives one record per row, in order, each the row with `page_id` set and every other key kept; every record yielded has that `page_id` |
| `StreamProperties.WithParentShape` | tap_facebook_pages/streams.py:136-138 | the loop raises iff some item is not a dict, and then raises AttributeError; otherwise it gives one record per item, in order, with the parent's keys overriding the item's; every record yielded is some item updated this way |
| `StreamProperties.ParentStamp` | tap_facebook_pages/streams.py:130-134 | a record carrying the parent dict has the post's `page_id`, `post_id` and `post_created_time` |
| `StreamProperties.TaggedRowShape` | tap_facebook_pages/streams.py:129-138 | a post without `to` yields nothing; otherwise one record per tagged profile, in order, each the profile updated with the parent info; every record is stamped with the post |
| `StreamProperties.TaggedRecordsShape` | tap_facebook_pages/streams.py:127-138 | there are as many records as tagged profiles over all posts; each is stamped with one of the response's posts |
| `StreamProperties.TaggedProvenance` | tap_facebook_pages/streams.py:127-138 | the records of post j come after those of the earlier posts and before those of the later ones, and each is stamped with post j |
| `StreamProperties.AttachmentRecordsShape` | tap_facebook_pages/streams.py:168-174 | the sub-attachments come first, in order, updated with the parent info; the attachment comes last, without `subattachments` and with the parent info overriding; the count is sub-attachments + 1, or 1 without them |
| `StreamProperties.AttachmentListShape` | tap_facebook_pages/streams.py:167-174 | the count is the sum over attachments; every record carries the parent info |
| `StreamProperties.AttachmentRowShape` | tap_facebook_pages/streams.py:161-174 | a post without `attachments` yields nothing; every record of a post is stamped with that post |
| `StreamProperties.AttachmentRowsShape` | tap_facebook_pages/streams.py:158-174 | the count is the sum over posts; every record is stamped with one of the response's posts |
| `StreamProperties.AttachmentProvenance` | tap_facebook_pages/streams.py:158-174 | the records of post j come after those of the earlier posts and before those of the later ones, and each is stamped with post j |
| `StreamProperties.BreakdownRecord` | tap_facebook_pages/streams.py:207-213 | the record of one breakdown key has `context` = the key, `value` = its value, `end_time` as the entry's or absent, and the base fields |
| `StreamProperties.ContextRecordsShape` | tap_facebook_pages/streams.py:206-213 | there is one record per key of the dict value, in `.items()` order, shaped as in BreakdownRecord; it raises iff page insights meet an entry without `end_time` and a non-empty dict |
| `StreamProperties.InsightValueShape` | tap_facebook_pages/streams.py:205-216 | a dict `value` gives one record per key, with `context`, `value` and `end_time`; any other value gives the entry itself updated with the base; the count is EntryCount |
| `StreamProperties.InsightValuesShape` | tap_facebook_pages/streams.py:204-216 | the count is the sum of EntryCount over `values`; every record carries the base fields |
| `StreamProperties.InsightWithBaseShape` | tap_facebook_pages/streams.py:203-216 | an insight without `values` yields nothing; otherwise the count is InsightCount and every record carries the base fields |
| `StreamProperties.PageBaseFits` | tap_facebook_pages/streams.py:197-202 | the page base item leaves `context`, `value` and `end_time` alone; carrying it means carrying the row's `name`, `period`, `title` and `id` |
| `StreamProperties.PageInsightRowShape` | tap_facebook_pages/streams.py:196-216 | a row yields InsightCount records, each with the row's `name`, `period`, `title` and `id`; a row without `values` yields nothing |
| `StreamProperties.PageInsightRowsShape` | tap_facebook_pages/streams.py:194-216 | the count is the sum over rows; every record carries the fields of one of the response's rows |
| `StreamProperties.PageInsightProvenance` | tap_facebook_pages/streams.py:194-216 | the records of row j come after those of the earlier rows and before those of the later ones, and each carries row j's `name`, `period`, `title` and `id` |
| `StreamProperties.PostBaseFits` | tap_facebook_pages/streams.py:240-249 | the post base item leaves `context`, `value` and `end_time` alone; carrying it means carrying the post's and the insight's fields |
| `StreamProperties.PostInsightShape` | tap_facebook_pages/streams.py:240-262 | one insight yields InsightCount records, each with `post_id`, `page_id`, `post_created_time` and the insight's `name`, `period`, `title`, `description` and `id` |
| `StreamProperties.PostInsightListShape` | tap_facebook_pages/streams.py:239-262 | the count is the sum over a post's insights; every record carries the fields of one of the post's insights |
| `StreamProperties.PostInsightListProvenance` | tap_facebook_pages/streams.py:239-262 | the records of a post's insight j come after those of its earlier insights and before those of the later ones, and each carries the post's and insight j's fields |
| `StreamProperties.PostInsightRowShape` | tap_facebook_pages/streams.py:238-262 | a post yields the sum of its insights' counts; every record is stamped with the post and carries one of its insights' fields |
| `StreamProperties.PostInsightRowsShape` | tap_facebook_pages/streams.py:236-262 | the count is the sum over posts and insights; every record is stamped with one of the response's posts |
| `StreamProperties.PostInsightProvenance` | tap_facebook_pages/streams.py:236-262 | the records of post j come after those of the earlier posts and before those of the later ones, and each is stamped with post j |
| `StreamProperties.RecordsCarryPageId` | tap_facebook_pages/streams.py:106 | every record that Posts, PostTaggedProfile, PostAttachments and PostInsights yield has the `page_id` that `get_url_params` recorded |
| `StreamProperties.ResponseCount` | tap_facebook_pages/streams.py:103-262 | a response that raises nothing gives, class by class, the number of records the counting rules give |
| `FacebookTap.Partitions` | tap_facebook_pages/tap.py:55 | one partition per configured page id, the same length, in the same order |
| `FacebookTap.PartitionsRoundTrip` | tap_facebook_pages/tap.py:55 | reading the page ids back from the partitions gives the configured list |
| `FacebookTap.ExchangedTokens` | tap_facebook_pages/tap.py:51-53 | exchanging succeeds iff every page's exchange succeeds; then every configured page has a key holding its exchanged token, and other keys are kept |
| `FacebookTap.TapFacebookPages.constructor` | tap_facebook_pages/tap.py:47-51 | a new tap keeps its config and catalog, and starts with no tokens |
| `FacebookTap.TapFacebookPages.ExchangeTokens` | tap_facebook_pages/tap.py:52-53 | the loop fills the token map exactly as Exchanged does, and fails iff an exchange fails |
| `FacebookTap.TapFacebookPages.Create` | tap_facebook_pages/tap.py:47-55 | construction succeeds iff every exchange succeeds; the tokens' keys are exactly the page ids, each holding its exchange result; the partitions are Partitions(page_ids), and every partition has a token |
| `FacebookTap.TapFacebookPages.NewClassStream` | tap_facebook_pages/tap.py:79-81 | a fixed-class stream has its class's name and id, no metrics, and the tap's partitions and tokens |
| `FacebookTap.TapFacebookPages.NewInsightStream` | tap_facebook_pages/tap.py:85-89 | an insight stream has the entry's class, name, metrics and `tap_stream_id` = name, and the tap's partitions and tokens |
| `FacebookTap.TapFacebookPages.DiscoverStreams` | tap_facebook_pages/tap.py:76-91 | there are 4 + |insights| distinct new streams: the four fixed classes in declared order, then one per insight entry in table order, all sharing the tap's partitions and tokens |
| `FacebookTap.SelectedIdsMembers` | tap_facebook_pages/tap.py:98-101 | an id is collected iff some selected catalog stream has it |
| `FacebookTap.CollectSelected` | tap_facebook_pages/tap.py:96-101 | the loop collects exactly SelectedIds, in catalog order |
| `FacebookTap.SelectPositions` | tap_facebook_pages/tap.py:103 | the filter's result is the discovered list at the positions SelectIndices lists |
| `FacebookTap.SelectIndicesOrdered` | tap_facebook_pages/tap.py:103 | those positions are in range and strictly increase, so discovery order is kept |
| `FacebookTap.SelectIndicesMembers` | tap_facebook_pages/tap.py:103 | a position is kept iff that stream's `tap_stream_id` is selected |
| `FacebookTap.SelectAppend` | tap_facebook_pages/tap.py:103 | filtering distributes over concatenation |
| `FacebookTap.SelectIdempotent` | tap_facebook_pages/tap.py:103 | filtering twice with the same selection equals filtering once |
| `FacebookTap.SelectOnlyKnownIds` | tap_facebook_pages/tap.py:103 | two selections that agree on every discovered id select the same streams |
| `FacebookTap.SelectUnknownId` | tap_facebook_pages/tap.py:103 | a selected id that no discovered stream has contributes nothing |
| `FacebookTap.TapFacebookPages.LoadStreams` | tap_facebook_pages/tap.py:93-106 | the result is the discovered streams unchanged without a catalog, and Select(discovered, selected ids) with one |

## Left out

- HTTP: the request loop, `url_base`/`path`, `response.json()`, status codes and `exchange_token`'s GET. These belong to the framework or the network. The exchange is a parameter `(page_id, access_token) -> Option<token>`, where None stands for the RuntimeError of a non-200 answer.
- `urllib.parse.parse_qs(urlparse(token).query)` is an uninterpreted parameter `parseQuery`, because its URL parsing is library code.
- `get_starting_timestamp` and pendulum: the starting timestamp is an `Option<int>` of epoch seconds that is already truncated.
- Page's `parse_response`: Page does not override it, and the framework's default is not shown.
- Schemas: a stream's schema property names are an input (`schemaOf`), since schema files and loading belong to the framework.
- The insight table of `insights.py` is a parameter `seq<InsightEntry>`, because it is constant data with no logic.
- `singer.catalog.Catalog.from_dict`: the catalog is a list of `(tap_stream_id, is_selected)` entries. None stands for a falsy `input_catalog`.
- Logging, the CLI and `config_jsonschema` are left out because they are I/O.
- Floating-point JSON numbers are not modelled; JSON numbers are integers only.
- Aliasing is not modelled. Python mutates the decoded response in place. Discovery gives every stream instance attributes that refer to the tap's own `partitions` list and token dict; the class attributes of `FacebookPagesStream` are only defaults. The model copies these values instead. A mutation is never observed through a second reference in the code shown.
- Duplicate keys inside a decoded JSON object are not resolved, as `json.loads` would resolve them. Lookups take the first entry.
- `Streams.FacebookPagesStream.ParseResponse` requires that `get_url_params` ran first, for every class that reads `self.page_id`. Otherwise Python raises AttributeError at the first row, which is not modelled.
- PageInsights declares `name = None` and `tap_stream_id = None`. The model uses the empty string, and discovery always overwrites both.
- `Streams.FacebookPagesStream.constructor` takes the stream's name as an argument. The framework's constructor takes `tap` and reads the config itself.
