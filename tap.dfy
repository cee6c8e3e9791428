/** The tap object: the page tokens and partitions it builds from its
    configuration, the stream objects it discovers, and the catalog filter
    that decides which of them run. */
module FacebookTap {
  import opened JsonValues
  import opened Streams

  /** The stream classes every discovery starts with, in declared order. */
  const STREAM_TYPES: seq<StreamKind> := [Page, Posts, PostAttachments, PostTaggedProfile]

  /** The settings the tap reads: `access_token`, `page_ids` and the
      optional `columns`. */
  datatype Config = Config(accessToken: string, pageIds: seq<string>, columns: Option<seq<string>>)

  /** One entry of the insight table: the class to build, the stream's name
      and the metrics it asks for. */
  datatype InsightEntry = InsightEntry(cls: StreamKind, name: string, metrics: seq<string>)

  /** One stream of an input catalog. */
  datatype CatalogEntry = CatalogEntry(tapStreamId: string, isSelected: bool)

  // ---------------------------------------------------------------------------
  // Partitions

  /** `[{"page_id": x} for x in page_ids]` */
  function Partitions(pageIds: seq<string>): (r: seq<Partition>)
    ensures |r| == |pageIds|
    ensures forall i :: 0 <= i < |pageIds| ==> r[i].pageId == pageIds[i]
  {
    seq(|pageIds|, i requires 0 <= i < |pageIds| => Partition(pageIds[i]))
  }

  function PageIdsOf(partitions: seq<Partition>): seq<string>
    decreases |partitions|
  {
    if partitions == [] then [] else [partitions[0].pageId] + PageIdsOf(partitions[1..])
  }

  /** Reading the page ids back from the partitions gives the configured
      list, in order. */
  lemma {:induction false} PartitionsRoundTrip(pageIds: seq<string>)
    ensures PageIdsOf(Partitions(pageIds)) == pageIds
    decreases |pageIds|
  {
    if pageIds != [] {
      PartitionsRoundTrip(pageIds[1..]);
      assert Partitions(pageIds)[1..] == Partitions(pageIds[1..]);
    }
  }

  // ---------------------------------------------------------------------------
  // Token exchange

  /** The token map after exchanging the tokens of `pageIds` in order,
      starting from `acc`; None when an exchange fails, which raises. */
  function Exchanged(acc: map<string, string>, pageIds: seq<string>, accessToken: string,
                     exchange: (string, string) -> Option<string>): Option<map<string, string>>
    decreases |pageIds|
  {
    if pageIds == [] then Some(acc)
    else match exchange(pageIds[0], accessToken)
      case None => None
      case Some(t) => Exchanged(acc[pageIds[0] := t], pageIds[1..], accessToken, exchange)
  }

  /** Exchanging succeeds exactly when every page's exchange does; the map
      then has a key for every configured page, holding that page's token,
      and keeps the other keys it started with. */
  lemma {:induction false} ExchangedTokens(acc: map<string, string>, pageIds: seq<string>, accessToken: string,
                                           exchange: (string, string) -> Option<string>)
    ensures Exchanged(acc, pageIds, accessToken, exchange).Some? <==>
      forall i :: 0 <= i < |pageIds| ==> exchange(pageIds[i], accessToken).Some?
    ensures var r := Exchanged(acc, pageIds, accessToken, exchange);
      r.Some? ==>
        && r.value.Keys == acc.Keys + (set i | 0 <= i < |pageIds| :: pageIds[i])
        && (forall i :: 0 <= i < |pageIds| ==> r.value[pageIds[i]] == exchange(pageIds[i], accessToken).value)
        && (forall k :: k in acc && k !in pageIds ==> r.value[k] == acc[k])
    decreases |pageIds|
  {
    if pageIds != [] {
      var rest := pageIds[1..];
      match exchange(pageIds[0], accessToken) {
        case None =>
        case Some(t) =>
          var acc' := acc[pageIds[0] := t];
          ExchangedTokens(acc', rest, accessToken, exchange);
          var r := Exchanged(acc', rest, accessToken, exchange);
          forall i | 1 <= i < |pageIds|
            ensures pageIds[i] == rest[i - 1]
          {
          }
          if r.Some? {
            assert (set i | 0 <= i < |pageIds| :: pageIds[i])
                == {pageIds[0]} + (set i | 0 <= i < |rest| :: rest[i]);
          }
      }
    }
  }

  // ---------------------------------------------------------------------------
  // Catalog selection

  /** The ids `load_streams` collects: those of the selected catalog
      streams, in catalog order. */
  function SelectedIds(catalog: seq<CatalogEntry>): seq<string>
    decreases |catalog|
  {
    if catalog == [] then []
    else (if catalog[0].isSelected then [catalog[0].tapStreamId] else []) + SelectedIds(catalog[1..])
  }

  /** An id is collected exactly when some selected catalog stream has it. */
  lemma {:induction false} SelectedIdsMembers(catalog: seq<CatalogEntry>, id: string)
    ensures id in SelectedIds(catalog) <==>
      exists i :: 0 <= i < |catalog| && catalog[i].isSelected && catalog[i].tapStreamId == id
    decreases |catalog|
  {
    if catalog != [] {
      SelectedIdsMembers(catalog[1..], id);
      if id in SelectedIds(catalog[1..]) {
        var i :| 0 <= i < |catalog| - 1 && catalog[1..][i].isSelected && catalog[1..][i].tapStreamId == id;
        assert catalog[i + 1] == catalog[1..][i];
      }
      if exists i :: 0 <= i < |catalog| && catalog[i].isSelected && catalog[i].tapStreamId == id {
        var i :| 0 <= i < |catalog| && catalog[i].isSelected && catalog[i].tapStreamId == id;
        if i > 0 {
          assert catalog[1..][i - 1] == catalog[i];
        }
      }
    }
  }

  /** The loop of `load_streams` that collects the selected ids. */
  method CollectSelected(catalog: seq<CatalogEntry>) returns (ids: seq<string>)
    ensures ids == SelectedIds(catalog)
  {
    ids := [];
    var i := 0;
    while i < |catalog|
      invariant 0 <= i <= |catalog|
      invariant SelectedIds(catalog) == ids + SelectedIds(catalog[i..])
    {
      assert catalog[i..][1..] == catalog[i + 1..];
      if catalog[i].isSelected {
        ids := ids + [catalog[i].tapStreamId];
      }
      i := i + 1;
    }
    assert catalog[i..] == [];
  }

  /** `[x for x in stream_objects if x.tap_stream_id in selected_streams]` */
  function Select(streams: seq<FacebookPagesStream>, ids: seq<string>): seq<FacebookPagesStream>
    reads streams
    decreases |streams|
  {
    if streams == [] then []
    else (if streams[0].tapStreamId in ids then [streams[0]] else []) + Select(streams[1..], ids)
  }

  /** The positions of the streams Select keeps. */
  function SelectIndices(streams: seq<FacebookPagesStream>, ids: seq<string>): seq<nat>
    reads streams
    decreases |streams|
  {
    if streams == [] then []
    else
      var rest := SelectIndices(streams[1..], ids);
      (if streams[0].tapStreamId in ids then [0] else []) + Shifted(rest)
  }

  /** Positions of the tail, moved one place right. */
  function Shifted(rest: seq<nat>): (r: seq<nat>)
    ensures |r| == |rest|
    ensures forall k :: 0 <= k < |rest| ==> r[k] == rest[k] + 1
  {
    seq(|rest|, k requires 0 <= k < |rest| => rest[k] + 1)
  }

  lemma ShiftedMembers(rest: seq<nat>)
    ensures forall i :: i in Shifted(rest) <==> i >= 1 && i - 1 in rest
  {
    var r := Shifted(rest);
    forall i
      ensures i in r <==> i >= 1 && i - 1 in rest
    {
      if i in r {
        var k :| 0 <= k < |r| && r[k] == i;
      }
      if i >= 1 && i - 1 in rest {
        var k :| 0 <= k < |rest| && rest[k] == i - 1;
        assert r[k] == i;
      }
    }
  }

  /** Select's result is `streams` at the positions SelectIndices lists. */
  lemma {:induction false} SelectPositions(streams: seq<FacebookPagesStream>, ids: seq<string>)
    ensures |Select(streams, ids)| == |SelectIndices(streams, ids)|
    ensures var r, idx := Select(streams, ids), SelectIndices(streams, ids);
      forall k :: 0 <= k < |idx| ==> idx[k] < |streams| && r[k] == streams[idx[k]]
    decreases |streams|
  {
    if streams != [] {
      var tail := streams[1..];
      SelectPositions(tail, ids);
      var rest := SelectIndices(tail, ids);
      var r' := Select(tail, ids);
      var idx := SelectIndices(streams, ids);
      var r := Select(streams, ids);
      if streams[0].tapStreamId in ids {
        assert idx == [0] + Shifted(rest);
        assert r == [streams[0]] + r';
        forall k | 1 <= k < |idx| ensures idx[k] < |streams| && r[k] == streams[idx[k]] {
          assert idx[k] == rest[k - 1] + 1;
          assert r[k] == r'[k - 1] == tail[rest[k - 1]];
        }
      } else {
        assert idx == Shifted(rest);
        assert r == r';
        forall k | 0 <= k < |idx| ensures idx[k] < |streams| && r[k] == streams[idx[k]] {
          assert idx[k] == rest[k] + 1;
          assert r[k] == r'[k] == tail[rest[k]];
        }
      }
    }
  }

  /** Those positions lie within `streams` and strictly increase: Select
      keeps the streams in discovery order. */
  lemma {:induction false} SelectIndicesOrdered(streams: seq<FacebookPagesStream>, ids: seq<string>)
    ensures forall k :: 0 <= k < |SelectIndices(streams, ids)| ==> SelectIndices(streams, ids)[k] < |streams|
    ensures forall k, l :: 0 <= k < l < |SelectIndices(streams, ids)| ==>
      SelectIndices(streams, ids)[k] < SelectIndices(streams, ids)[l]
    decreases |streams|
  {
    if streams != [] {
      var tail := streams[1..];
      SelectIndicesOrdered(tail, ids);
      var rest := SelectIndices(tail, ids);
      var idx := SelectIndices(streams, ids);
      if streams[0].tapStreamId in ids {
        assert idx == [0] + Shifted(rest);
      } else {
        assert idx == Shifted(rest);
      }
    }
  }

  /** A position is listed exactly when that stream's id is selected. */
  lemma {:induction false} SelectIndicesMembers(streams: seq<FacebookPagesStream>, ids: seq<string>)
    ensures var idx := SelectIndices(streams, ids);
      forall i :: 0 <= i < |streams| ==> (i in idx <==> streams[i].tapStreamId in ids)
    decreases |streams|
  {
    if streams != [] {
      var tail := streams[1..];
      SelectIndicesMembers(tail, ids);
      var rest := SelectIndices(tail, ids);
      var idx := SelectIndices(streams, ids);
      ShiftedMembers(rest);
      if streams[0].tapStreamId in ids {
        assert idx == [0] + Shifted(rest);
      } else {
        assert idx == Shifted(rest);
      }
      forall i | 1 <= i < |streams|
        ensures i in idx <==> streams[i].tapStreamId in ids
      {
        assert streams[i] == tail[i - 1];
        assert i in idx <==> i in Shifted(rest);
      }
    }
  }

  /** Filtering again with the same selection changes nothing. */
  lemma {:induction false} SelectIdempotent(streams: seq<FacebookPagesStream>, ids: seq<string>)
    ensures Select(Select(streams, ids), ids) == Select(streams, ids)
    decreases |streams|
  {
    if streams != [] {
      SelectIdempotent(streams[1..], ids);
      SelectAppend(if streams[0].tapStreamId in ids then [streams[0]] else [], Select(streams[1..], ids), ids);
    }
  }

  lemma {:induction false} SelectAppend(a: seq<FacebookPagesStream>, b: seq<FacebookPagesStream>, ids: seq<string>)
    ensures Select(a + b, ids) == Select(a, ids) + Select(b, ids)
    decreases |a|
  {
    if a != [] {
      SelectAppend(a[1..], b, ids);
      assert (a + b)[1..] == a[1..] + b;
    } else {
      assert a + b == b;
    }
  }

  /** Only the selected ids that some stream has matter: two selections that
      agree on every stream's id select the same streams. */
  lemma {:induction false} SelectOnlyKnownIds(streams: seq<FacebookPagesStream>, ids: seq<string>, ids': seq<string>)
    requires forall i :: 0 <= i < |streams| ==> (streams[i].tapStreamId in ids <==> streams[i].tapStreamId in ids')
    ensures Select(streams, ids) == Select(streams, ids')
    decreases |streams|
  {
    if streams != [] {
      assert streams[0].tapStreamId in ids <==> streams[0].tapStreamId in ids';
      forall i | 0 <= i < |streams| - 1
        ensures streams[1..][i].tapStreamId in ids <==> streams[1..][i].tapStreamId in ids'
      {
        assert streams[1..][i] == streams[i + 1];
      }
      SelectOnlyKnownIds(streams[1..], ids, ids');
    }
  }

  /** A selected id that no stream has contributes nothing. */
  lemma {:induction false} SelectUnknownId(streams: seq<FacebookPagesStream>, ids: seq<string>, unknown: string)
    requires forall i :: 0 <= i < |streams| ==> streams[i].tapStreamId != unknown
    ensures Select(streams, ids + [unknown]) == Select(streams, ids)
  {
    SelectOnlyKnownIds(streams, ids + [unknown], ids);
  }

  // ---------------------------------------------------------------------------
  // The tap

  class TapFacebookPages {
    const config: Config
    /** The input catalog's streams; None when the tap has no catalog or an
        empty one. */
    const inputCatalog: Option<seq<CatalogEntry>>
    var accessTokens: map<string, string>
    var partitions: seq<Partition>

    constructor (config: Config, inputCatalog: Option<seq<CatalogEntry>>)
      ensures this.config == config && this.inputCatalog == inputCatalog
      ensures accessTokens == map[] && partitions == []
    {
      this.config := config;
      this.inputCatalog := inputCatalog;
      accessTokens := map[];
      partitions := [];
    }

    /** The loop of `__init__`: one exchange per configured page, in order;
      the first failing one ends construction. */
    method ExchangeTokens(exchange: (string, string) -> Option<string>) returns (ok: bool)
      modifies this`accessTokens
      ensures var r := Exchanged(old(accessTokens), config.pageIds, config.accessToken, exchange);
        ok == r.Some? && (ok ==> accessTokens == r.value)
    {
      var i := 0;
      while i < |config.pageIds|
        invariant 0 <= i <= |config.pageIds|
        invariant Exchanged(old(accessTokens), config.pageIds, config.accessToken, exchange)
               == Exchanged(accessTokens, config.pageIds[i..], config.accessToken, exchange)
      {
        assert config.pageIds[i..][1..] == config.pageIds[i + 1..];
        var pageId := config.pageIds[i];
        match exchange(pageId, config.accessToken) {
          case None => return false;
          case Some(t) => accessTokens := accessTokens[pageId := t];
        }
        i := i + 1;
      }
      ok := true;
    }

    /** `__init__`: a token for every configured page, then the partitions.
        None is construction raising because an exchange failed. */
    static method Create(config: Config, inputCatalog: Option<seq<CatalogEntry>>,
                         exchange: (string, string) -> Option<string>) returns (r: Option<TapFacebookPages>)
      ensures r.Some? <==> forall i :: 0 <= i < |config.pageIds| ==> exchange(config.pageIds[i], config.accessToken).Some?
      ensures r.Some? ==> fresh(r.value) && r.value.config == config && r.value.inputCatalog == inputCatalog
      ensures r.Some? ==> r.value.accessTokens.Keys == set i | 0 <= i < |config.pageIds| :: config.pageIds[i]
      ensures r.Some? ==> forall i :: 0 <= i < |config.pageIds| ==>
        r.value.accessTokens[config.pageIds[i]] == exchange(config.pageIds[i], config.accessToken).value
      ensures r.Some? ==> r.value.partitions == Partitions(config.pageIds)
      ensures r.Some? ==> forall p :: p in r.value.partitions ==> p.pageId in r.value.accessTokens
    {
      var tap := new TapFacebookPages(config, inputCatalog);
      ExchangedTokens(map[], config.pageIds, config.accessToken, exchange);
      var ok := tap.ExchangeTokens(exchange);
      if !ok {
        return None;
      }
      tap.partitions := Partitions(config.pageIds);
      r := Some(tap);
    }

    /** A discovered stream shares the tap's partitions and tokens, has not
        run a request yet, and has its class's schema. */
    ghost predicate SharesTap(stream: FacebookPagesStream, schemaOf: StreamKind -> seq<string>)
      reads this, stream
    {
      && stream.partitions == partitions
      && stream.accessTokens == accessTokens
      && stream.pageId == None
      && stream.configColumns == config.columns
      && stream.schemaProperties == schemaOf(stream.kind)
    }

    /** A stream of one of the fixed classes, as its class declares it. */
    ghost predicate IsClassStream(stream: FacebookPagesStream, kind: StreamKind)
      reads stream
    {
      && stream.kind == kind
      && stream.name == ClassStreamId(kind)
      && stream.tapStreamId == ClassStreamId(kind)
      && stream.metrics == []
    }

    /** A stream built from an insight table entry. */
    ghost predicate IsInsightStream(stream: FacebookPagesStream, entry: InsightEntry)
      reads stream
    {
      && stream.kind == entry.cls
      && stream.name == entry.name
      && stream.tapStreamId == entry.name
      && stream.metrics == entry.metrics
    }

    /** What `discover_streams` builds: the fixed classes first, in declared
        order, then one stream per insight entry, in table order. */
    ghost predicate Discovered(streams: seq<FacebookPagesStream>, insights: seq<InsightEntry>,
                               schemaOf: StreamKind -> seq<string>)
      reads this, streams
    {
      && |streams| == |STREAM_TYPES| + |insights|
      && (forall i :: 0 <= i < |streams| ==> SharesTap(streams[i], schemaOf))
      && (forall i :: 0 <= i < |STREAM_TYPES| ==> IsClassStream(streams[i], STREAM_TYPES[i]))
      && (forall i :: 0 <= i < |insights| ==> IsInsightStream(streams[|STREAM_TYPES| + i], insights[i]))
    }

    /** `stream_class(tap=self)`, then the shared fields. */
    method NewClassStream(kind: StreamKind, schemaOf: StreamKind -> seq<string>) returns (stream: FacebookPagesStream)
      ensures fresh(stream) && SharesTap(stream, schemaOf) && IsClassStream(stream, kind)
    {
      stream := new FacebookPagesStream(kind, ClassStreamId(kind), config.columns, schemaOf(kind));
      stream.partitions := partitions;
      stream.accessTokens := accessTokens;
    }

    /** `insight_stream["class"](tap=self, name=...)`, then its id, metrics
        and the shared fields. */
    method NewInsightStream(entry: InsightEntry, schemaOf: StreamKind -> seq<string>) returns (stream: FacebookPagesStream)
      ensures fresh(stream) && SharesTap(stream, schemaOf) && IsInsightStream(stream, entry)
    {
      stream := new FacebookPagesStream(entry.cls, entry.name, config.columns, schemaOf(entry.cls));
      stream.tapStreamId := entry.name;
      stream.metrics := entry.metrics;
      stream.partitions := partitions;
      stream.accessTokens := accessTokens;
    }

    /** `discover_streams`, with the insight table and each class's schema
        property names as inputs. */
    method DiscoverStreams(insights: seq<InsightEntry>, schemaOf: StreamKind -> seq<string>)
      returns (streams: seq<FacebookPagesStream>)
      ensures Discovered(streams, insights, schemaOf)
      ensures forall i :: 0 <= i < |streams| ==> fresh(streams[i])
      ensures forall i, j :: 0 <= i < j < |streams| ==> streams[i] != streams[j]
    {
      streams := [];
      var i := 0;
      while i < |STREAM_TYPES|
        invariant 0 <= i <= |STREAM_TYPES| && |streams| == i
        invariant forall j :: 0 <= j < i ==> fresh(streams[j])
        invariant forall j, k :: 0 <= j < k < i ==> streams[j] != streams[k]
        invariant forall j :: 0 <= j < i ==> SharesTap(streams[j], schemaOf)
        invariant forall j :: 0 <= j < i ==> IsClassStream(streams[j], STREAM_TYPES[j])
      {
        var stream := NewClassStream(STREAM_TYPES[i], schemaOf);
        streams := streams + [stream];
        i := i + 1;
      }
      var n := 0;
      while n < |insights|
        invariant 0 <= n <= |insights| && |streams| == |STREAM_TYPES| + n
        invariant forall j :: 0 <= j < |streams| ==> fresh(streams[j])
        invariant forall j, k :: 0 <= j < k < |streams| ==> streams[j] != streams[k]
        invariant forall j :: 0 <= j < |streams| ==> SharesTap(streams[j], schemaOf)
        invariant forall j :: 0 <= j < |STREAM_TYPES| ==> IsClassStream(streams[j], STREAM_TYPES[j])
        invariant forall j :: 0 <= j < n ==> IsInsightStream(streams[|STREAM_TYPES| + j], insights[j])
      {
        var stream := NewInsightStream(insights[n], schemaOf);
        streams := streams + [stream];
        n := n + 1;
      }
    }

    /** `load_streams`: the discovered streams, filtered by the catalog's
        selected ids when there is a catalog. */
    method LoadStreams(insights: seq<InsightEntry>, schemaOf: StreamKind -> seq<string>)
      returns (streams: seq<FacebookPagesStream>, discovered: seq<FacebookPagesStream>)
      ensures Discovered(discovered, insights, schemaOf)
      ensures inputCatalog.None? ==> streams == discovered
      ensures inputCatalog.Some? ==> streams == Select(discovered, SelectedIds(inputCatalog.value))
    {
      var all := DiscoverStreams(insights, schemaOf);
      discovered := all;
      streams := all;
      if inputCatalog.Some? {
        var selected := CollectSelected(inputCatalog.value);
        streams := Select(all, selected);
      }
    }
  }
}
