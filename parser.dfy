/** Projection of the catalog's JSON responses into domain records, under
    the two disciplines of the source: lenient (defaults and skips, never
    fails) for search results, episode lists and stream sources, and strict
    (typed errors) for the alternate stream path. */
module Parser {
  import opened Wrappers
  import opened Json
  import opened Text
  import opened Seqs
  import opened Models

  const InvalidSourcesMessage: string := "Expected sourceUrls to be an array"
  const MissingUrlMessage: string := "Missing sourceUrl field"
  const UnknownProvider: string := "Unknown"
  const DefaultQuality: u16 := 720

  // ---------------------------------------------------------------- search

  /** `data.shows.edges`, when it is an array. */
  function Edges(data: Json): Option<seq<Json>> {
    data.At("data").At("shows").At("edges").AsArray()
  }

  /** The count under `key` of an `availableEpisodes` object is a u64 above 0. */
  predicate HasEpisodes(available: Json, key: string) {
    match available.At(key).AsU64()
    case Some(n) => n > 0
    case None => false
  }

  /** The translations a search result reports: a `Sub` when the sub count
      is a positive u64, then a `Dub` when the dub count is. */
  function TranslationsOf(available: Json): seq<TranslationType> {
    (if available.At("sub").AsU64().GetOr(0) > 0 then [Sub] else [])
    + (if available.At("dub").AsU64().GetOr(0) > 0 then [Dub] else [])
  }

  /** `Sub` is reported exactly when the sub count is a positive u64, `Dub`
      exactly when the dub count is, `Sub` first and never a duplicate. */
  lemma TranslationsReported(available: Json)
    ensures Sub in TranslationsOf(available) <==> HasEpisodes(available, "sub")
    ensures Dub in TranslationsOf(available) <==> HasEpisodes(available, "dub")
    ensures forall i, j :: 0 <= i < j < |TranslationsOf(available)| ==>
              TranslationsOf(available)[i] == Sub && TranslationsOf(available)[j] == Dub
  {
  }

  /** The episode count of a search result. */
  function EpisodeCount(available: Json): usize {
    available.At("sub").AsU64().OrElse(available.At("dub").AsU64()).GetOr(0)
  }

  /** The sub count wins whenever it is a u64, 0 included; the dub count is
      used only when the sub count is missing or not a u64; otherwise 0. */
  lemma EpisodeCountFallback(available: Json)
    ensures available.At("sub").JNum? && available.At("sub").n.PosInt? ==>
              EpisodeCount(available) == available.At("sub").n.u
    ensures !(available.At("sub").JNum? && available.At("sub").n.PosInt?) ==>
              EpisodeCount(available) == (if available.At("dub").JNum? && available.At("dub").n.PosInt?
                                          then available.At("dub").n.u else 0)
  {
  }

  /** One search edge as an `Anime`. */
  function AnimeOf(entry: Json): Anime {
    var available := entry.At("availableEpisodes");
    Anime(entry.At("_id").AsStr().GetOr(""), entry.At("name").AsStr().GetOr(""),
          TranslationsOf(available), EpisodeCount(available))
  }

  /** A missing or non-string `_id` or `name` becomes the empty string; the
      translations and count come from `availableEpisodes` alone. */
  lemma AnimeOfFields(entry: Json)
    ensures AnimeOf(entry).id == (if entry.At("_id").JStr? then entry.At("_id").s else "")
    ensures AnimeOf(entry).title == (if entry.At("name").JStr? then entry.At("name").s else "")
    ensures AnimeOf(entry).available_translations == TranslationsOf(entry.At("availableEpisodes"))
    ensures AnimeOf(entry).episode_count == EpisodeCount(entry.At("availableEpisodes"))
  {
  }

  /** The translations vector of one search edge, built by pushing. */
  method CollectTranslations(available: Json) returns (translations: seq<TranslationType>)
    ensures translations == TranslationsOf(available)
  {
    translations := [];
    if available.At("sub").AsU64().GetOr(0) > 0 {
      translations := translations + [Sub];
    }
    if available.At("dub").AsU64().GetOr(0) > 0 {
      translations := translations + [Dub];
    }
  }

  /** `parse_search_results`: one `Anime` per edge, in edge order; nothing
      when `edges` is not an array. */
  method ParseSearchResults(data: Json) returns (results: seq<Anime>)
    ensures Edges(data).None? ==> results == []
    ensures Edges(data).Some? ==> |results| == |Edges(data).value|
    ensures Edges(data).Some? ==>
              forall i :: 0 <= i < |results| ==> results[i] == AnimeOf(Edges(data).value[i])
  {
    results := [];
    var edges := data.At("data").At("shows").At("edges").AsArray();
    if edges.Some? {
      var elems := edges.value;
      for k := 0 to |elems|
        invariant |results| == k
        invariant forall i :: 0 <= i < k ==> results[i] == AnimeOf(elems[i])
      {
        var anime := ParseEdge(elems[k]);
        results := results + [anime];
      }
    }
  }

  /** The body of the loop of `parse_search_results`: one edge read field
      by field. */
  method ParseEdge(entry: Json) returns (anime: Anime)
    ensures anime == AnimeOf(entry)
  {
    var id := entry.At("_id").AsStr().GetOr("");
    var title := entry.At("name").AsStr().GetOr("");
    var available := entry.At("availableEpisodes");
    var translations := CollectTranslations(available);
    var episodeCount := available.At("sub").AsU64().OrElse(available.At("dub").AsU64()).GetOr(0);
    anime := Anime(id, title, translations, episodeCount);
  }

  /** A search response with one edge of 220 sub and 200 dub episodes. */
  lemma SearchExample(data: Json, edge: Json)
    requires edge == JObj(map["_id" := JStr("id1"), "name" := JStr("Naruto"),
                               "availableEpisodes" := JObj(map["sub" := Int(220), "dub" := Int(200)])])
    requires data == JObj(map["data" := JObj(map["shows" := JObj(map["edges" := JArr([edge])])])])
    ensures Edges(data) == Some([edge])
    ensures AnimeOf(edge) == Anime("id1", "Naruto", [Sub, Dub], 220)
  {
  }

  // ---------------------------------------------------------- episode list

  /** `data.show.availableEpisodesDetail.<sub|dub>`, when it is an array:
      only the array of the requested translation is read. */
  function EpisodeArray(data: Json, translation: TranslationType): Option<seq<Json>> {
    data.At("data").At("show").At("availableEpisodesDetail").At(WireToken(translation)).AsArray()
  }

  /** One entry of the episode array. */
  function EpisodeOf(ep: Json, parseF32: string -> Option<real>): Option<EpisodeMeta> {
    match ep.AsStr()
    case None => None
    case Some(s) =>
      match parseF32(s)
      case Some(num) => Some(EpisodeMeta(num, true))
      case None => None
  }

  /** `EpisodeOf` with the number parser fixed, as the filter step. */
  function EpisodeParser(parseF32: string -> Option<real>): Json -> Option<EpisodeMeta> {
    ep => EpisodeOf(ep, parseF32)
  }

  /** A string that `parseF32` accepts becomes a released episode with that
      number; a non-string or an unparseable string is dropped. */
  lemma EpisodeOfKeeps(ep: Json, parseF32: string -> Option<real>)
    ensures EpisodeOf(ep, parseF32).Some? <==> ep.JStr? && parseF32(ep.s).Some?
    ensures EpisodeOf(ep, parseF32).Some? ==> EpisodeOf(ep, parseF32).value == EpisodeMeta(parseF32(ep.s).value, true)
  {
  }

  /** The episodes of one translation, as `parse_episode_list` returns them. */
  function EpisodeList(data: Json, translation: TranslationType, parseF32: string -> Option<real>)
    : seq<EpisodeMeta>
  {
    match EpisodeArray(data, translation)
    case None => []
    case Some(elems) => FilterMap(elems, EpisodeParser(parseF32))
  }

  /** Nothing when the selected list is not an array; otherwise at most one
      episode per entry, each released, each the parse of a string of the
      selected array, every such string giving one. */
  lemma {:induction false} EpisodeListMember(data: Json, translation: TranslationType,
                                             parseF32: string -> Option<real>, e: EpisodeMeta)
    ensures EpisodeArray(data, translation).None? ==> EpisodeList(data, translation, parseF32) == []
    ensures EpisodeArray(data, translation).Some? ==>
              |EpisodeList(data, translation, parseF32)| <= |EpisodeArray(data, translation).value|
    ensures e in EpisodeList(data, translation, parseF32) <==>
              EpisodeArray(data, translation).Some? && e.released &&
              exists i :: 0 <= i < |EpisodeArray(data, translation).value| &&
                          EpisodeArray(data, translation).value[i].JStr? &&
                          parseF32(EpisodeArray(data, translation).value[i].s) == Some(e.number)
  {
    if EpisodeArray(data, translation).Some? {
      var elems := EpisodeArray(data, translation).value;
      var f := EpisodeParser(parseF32);
      FilterMapMember(elems, f, e);
      if exists i :: 0 <= i < |elems| && f(elems[i]) == Some(e) {
        var i :| 0 <= i < |elems| && f(elems[i]) == Some(e);
        EpisodeOfKeeps(elems[i], parseF32);
      }
      if e.released && exists i :: 0 <= i < |elems| && elems[i].JStr? && parseF32(elems[i].s) == Some(e.number) {
        var i :| 0 <= i < |elems| && elems[i].JStr? && parseF32(elems[i].s) == Some(e.number);
        EpisodeOfKeeps(elems[i], parseF32);
        assert f(elems[i]) == Some(e);
      }
    }
  }

  /** Only the array of the requested translation is read: documents that
      agree on it give the same episodes. */
  lemma EpisodeListReadsOneArray(d1: Json, d2: Json, translation: TranslationType,
                                 parseF32: string -> Option<real>)
    requires EpisodeArray(d1, translation) == EpisodeArray(d2, translation)
    ensures EpisodeList(d1, translation, parseF32) == EpisodeList(d2, translation, parseF32)
  {
  }

  /** `parse_episode_list`. */
  method ParseEpisodeList(data: Json, translation: TranslationType, parseF32: string -> Option<real>)
    returns (episodes: seq<EpisodeMeta>)
    ensures episodes == EpisodeList(data, translation, parseF32)
  {
    episodes := [];
    var key := match translation
      case Sub => "sub"
      case Dub => "dub";
    var list := data.At("data").At("show").At("availableEpisodesDetail").At(key);
    var found := list.AsArray();
    if found.Some? {
      var elems := found.value;
      episodes := CollectEpisodes(elems, parseF32);
    }
  }

  /** The loop of `parse_episode_list`. */
  method CollectEpisodes(elems: seq<Json>, parseF32: string -> Option<real>) returns (episodes: seq<EpisodeMeta>)
    ensures episodes == FilterMap(elems, EpisodeParser(parseF32))
  {
    episodes := [];
    for k := 0 to |elems|
      invariant episodes == FilterMap(elems[..k], EpisodeParser(parseF32))
    {
      var ep := elems[k];
      FilterMapSnoc(elems[..k], ep, EpisodeParser(parseF32));
      assert elems[..k + 1] == elems[..k] + [ep];
      if ep.AsStr().Some? {
        var s := ep.AsStr().value;
        var num := parseF32(s);
        if num.Some? {
          episodes := episodes + [EpisodeMeta(num.value, true)];
        }
      }
    }
    assert elems[..|elems|] == elems;
  }

  /** Of an episode list holding "1", "2", "5.5" and "movie", the three
      numbers are kept in order and "movie" is dropped. */
  lemma {:induction false} EpisodeListExample(data: Json, parseF32: string -> Option<real>)
    requires data == JObj(map["data" := JObj(map["show" := JObj(map["availableEpisodesDetail" :=
               JObj(map["sub" := JArr([JStr("1"), JStr("2"), JStr("5.5"), JStr("movie")])])])])])
    requires parseF32("1") == Some(1.0) && parseF32("2") == Some(2.0)
    requires parseF32("5.5") == Some(5.5) && parseF32("movie") == None
    ensures EpisodeList(data, Sub, parseF32) ==
              [EpisodeMeta(1.0, true), EpisodeMeta(2.0, true), EpisodeMeta(5.5, true)]
    ensures EpisodeList(data, Dub, parseF32) == []
  {
    assert WireToken(Sub) == "sub" && WireToken(Dub) == "dub";
    assert EpisodeArray(data, Sub) == Some([JStr("1"), JStr("2"), JStr("5.5"), JStr("movie")]);
    FourEpisodes(parseF32);
  }

  /** The filtering step of `EpisodeListExample`, one entry at a time. */
  lemma {:induction false} FourEpisodes(parseF32: string -> Option<real>)
    requires parseF32("1") == Some(1.0) && parseF32("2") == Some(2.0)
    requires parseF32("5.5") == Some(5.5) && parseF32("movie") == None
    ensures FilterMap([JStr("1"), JStr("2"), JStr("5.5"), JStr("movie")], EpisodeParser(parseF32)) ==
              [EpisodeMeta(1.0, true), EpisodeMeta(2.0, true), EpisodeMeta(5.5, true)]
  {
    var f := EpisodeParser(parseF32);
    var a1, a2, a3 := [JStr("1")], [JStr("1"), JStr("2")], [JStr("1"), JStr("2"), JStr("5.5")];
    FilterMapSnoc([], JStr("1"), f);
    assert [] + [JStr("1")] == a1;
    FilterMapSnoc(a1, JStr("2"), f);
    assert a1 + [JStr("2")] == a2;
    FilterMapSnoc(a2, JStr("5.5"), f);
    assert a2 + [JStr("5.5")] == a3;
    FilterMapSnoc(a3, JStr("movie"), f);
    assert a3 + [JStr("movie")] == [JStr("1"), JStr("2"), JStr("5.5"), JStr("movie")];
  }

  // -------------------------------------------------- stream sources, lenient

  /** `data.episode.sourceUrls`. */
  function Sources(data: Json): Json {
    data.At("data").At("episode").At("sourceUrls")
  }

  /** One source entry on the lenient path. */
  function StreamOf(entry: Json): Option<EpisodeStream> {
    var url := entry.At("sourceUrl").AsStr().GetOr("");
    var provider := entry.At("sourceName").AsStr().GetOr(UnknownProvider);
    if StartsWith(url, "http") then Some(EpisodeStream(0, url, provider)) else None
  }

  /** An entry is kept exactly when `sourceUrl` is a string starting with
      "http"; the provider is `sourceName` or "Unknown"; the quality is 0. */
  lemma StreamOfKeeps(entry: Json)
    ensures StreamOf(entry).Some? <==> entry.At("sourceUrl").JStr? && StartsWith(entry.At("sourceUrl").s, "http")
    ensures StreamOf(entry).Some? ==>
              StreamOf(entry).value.url == entry.At("sourceUrl").s && StreamOf(entry).value.quality == 0
    ensures StreamOf(entry).Some? ==>
              StreamOf(entry).value.provider ==
              (if entry.At("sourceName").JStr? then entry.At("sourceName").s else UnknownProvider)
  {
  }

  /** The streams `parse_stream_sources` returns: nothing when `sourceUrls`
      is not an array, otherwise the kept entries in source order. */
  function StreamSources(data: Json): seq<EpisodeStream> {
    match Sources(data).AsArray()
    case None => []
    case Some(elems) => FilterMap(elems, StreamOf)
  }

  /** A stream is returned exactly when some entry's URL passes the prefix
      check, whatever its other fields hold; every returned stream has an
      "http" URL and quality 0; nothing is returned for a non-array. */
  lemma {:induction false} StreamSourcesMember(data: Json, s: EpisodeStream)
    ensures !Sources(data).JArr? ==> StreamSources(data) == []
    ensures s in StreamSources(data) <==>
              Sources(data).JArr? &&
              exists i :: 0 <= i < |Sources(data).items| && StreamOf(Sources(data).items[i]) == Some(s)
    ensures s in StreamSources(data) ==> StartsWith(s.url, "http") && s.quality == 0
  {
    if Sources(data).JArr? {
      var elems := Sources(data).items;
      FilterMapMember(elems, StreamOf, s);
      if s in StreamSources(data) {
        var i :| 0 <= i < |elems| && StreamOf(elems[i]) == Some(s);
        StreamOfKeeps(elems[i]);
      }
    }
  }

  /** `parse_stream_sources`. */
  method ParseStreamSources(data: Json) returns (streams: seq<EpisodeStream>)
    ensures streams == StreamSources(data)
  {
    streams := [];
    var sources := data.At("data").At("episode").At("sourceUrls");
    var found := sources.AsArray();
    if found.Some? {
      var elems := found.value;
      for k := 0 to |elems|
        invariant streams == FilterMap(elems[..k], StreamOf)
      {
        var entry := elems[k];
        FilterMapSnoc(elems[..k], entry, StreamOf);
        assert elems[..k + 1] == elems[..k] + [entry];
        var url := entry.At("sourceUrl").AsStr().GetOr("");
        var provider := entry.At("sourceName").AsStr().GetOr(UnknownProvider);
        if StartsWith(url, "http") {
          streams := streams + [EpisodeStream(0, url, provider)];
        }
      }
      assert elems[..|elems|] == elems;
    }
  }

  // --------------------------------------------------- stream sources, strict

  /** `parse_quality`. */
  function ParseQuality(entry: Json): Option<u16> {
    var parsed := match entry.At("quality").AsStr()
      case Some(q) => ParseU16(Trim(q))
      case None => None;
    parsed.OrElse(Some(DefaultQuality))
  }

  /** `parse_quality` is never `None`: it gives the trimmed `quality` string
      parsed as a u16 when that parses, and 720 otherwise. */
  lemma ParseQualityDefaults(entry: Json)
    ensures ParseQuality(entry).Some?
    ensures entry.At("quality").JStr? && ParseU16(Trim(entry.At("quality").s)).Some? ==>
              ParseQuality(entry) == ParseU16(Trim(entry.At("quality").s))
    ensures !(entry.At("quality").JStr? && ParseU16(Trim(entry.At("quality").s)).Some?) ==>
              ParseQuality(entry) == Some(DefaultQuality)
  {
  }

  /** A quality field holding a u16 in decimal, with any whitespace around
      it, yields that u16. */
  lemma {:induction false} ParseQualityOfDecimal(entry: Json, n: u16, left: string, right: string)
    requires AllWhitespace(left) && AllWhitespace(right)
    requires entry.At("quality") == JStr(left + Decimal(n) + right)
    ensures ParseQuality(entry) == Some(n)
  {
    var d := Decimal(n);
    assert !IsWhitespace(d[0]) && !IsWhitespace(d[|d| - 1]);
    TrimPadded(left, d, right);
    ParseU16Decimal(n);
  }

  /** The entry carries a string `sourceUrl`. */
  predicate HasUrl(entry: Json) {
    entry.At("sourceUrl").JStr?
  }

  /** One source entry on the strict path, once its URL is known to be a
      string. */
  function StrictStreamOf(entry: Json): Option<EpisodeStream> {
    match entry.At("sourceUrl").AsStr()
    case None => None
    case Some(url) =>
      var provider := entry.At("sourceName").AsStr().GetOr(UnknownProvider);
      if StartsWith(url, "http")
      then Some(EpisodeStream(ParseQuality(entry).GetOr(0), url, provider))
      else None
  }

  /** On the strict path an entry is kept exactly when its URL starts with
      "http"; its quality is the one `parse_quality` gives, so the
      `unwrap_or(0)` fallback never applies. */
  lemma StrictStreamOfKeeps(entry: Json)
    ensures StrictStreamOf(entry).Some? <==> HasUrl(entry) && StartsWith(entry.At("sourceUrl").s, "http")
    ensures StrictStreamOf(entry).Some? ==>
              StrictStreamOf(entry).value.url == entry.At("sourceUrl").s
              && Some(StrictStreamOf(entry).value.quality) == ParseQuality(entry)
    ensures StrictStreamOf(entry).Some? ==>
              StrictStreamOf(entry).value.provider ==
              (if entry.At("sourceName").JStr? then entry.At("sourceName").s else UnknownProvider)
  {
    ParseQualityDefaults(entry);
  }

  /** The result of `parse_complex_data`. */
  function ComplexData(data: Json): Result<seq<EpisodeStream>, AppError> {
    var sources := Sources(data);
    if !sources.IsArray() then Failure(ParsingError(InvalidSourcesMessage))
    else if sources.items == [] then Failure(NoStreamsAvailable)
    else StrictStreams(sources.items)
  }

  /** The strict pass over the entries of a non-empty `sourceUrls`. */
  function StrictStreams(entries: seq<Json>): Result<seq<EpisodeStream>, AppError> {
    if exists i :: 0 <= i < |entries| && !HasUrl(entries[i]) then
      Failure(ParsingError(MissingUrlMessage))
    else
      var streams := FilterMap(entries, StrictStreamOf);
      if streams == [] then Failure(NoStreamsAvailable) else Success(streams)
  }

  /** The outcomes of the strict path. A non-array `sourceUrls` is a parsing
      error and an empty one means no streams; any entry without a string
      `sourceUrl` aborts with a parsing error; if no URL passes the prefix
      check there are no streams; otherwise the kept entries in source
      order, never empty and all with an "http" URL. */
  lemma {:induction false} ComplexDataOutcomes(data: Json)
    ensures !Sources(data).JArr? ==> ComplexData(data) == Failure(ParsingError(InvalidSourcesMessage))
    ensures Sources(data).JArr? && Sources(data).items == [] ==> ComplexData(data) == Failure(NoStreamsAvailable)
    ensures ComplexData(data) == Failure(ParsingError(MissingUrlMessage)) <==>
              Sources(data).JArr? && exists i :: 0 <= i < |Sources(data).items| && !HasUrl(Sources(data).items[i])
    ensures ComplexData(data) == Failure(NoStreamsAvailable) <==>
              Sources(data).JArr? &&
              forall i :: 0 <= i < |Sources(data).items| ==>
                HasUrl(Sources(data).items[i]) && !StartsWith(Sources(data).items[i].At("sourceUrl").s, "http")
    ensures ComplexData(data).Success? ==>
              ComplexData(data).value != [] && ComplexData(data).value == FilterMap(Sources(data).items, StrictStreamOf)
    ensures ComplexData(data).Success? ==>
              forall i :: 0 <= i < |ComplexData(data).value| ==> StartsWith(ComplexData(data).value[i].url, "http")
  {
    var sources := Sources(data);
    if sources.JArr? {
      var elems := sources.items;
      FilterMapEmpty(elems, StrictStreamOf);
      forall i | 0 <= i < |elems| ensures StrictStreamOf(elems[i]).None? <==>
                                            !HasUrl(elems[i]) || !StartsWith(elems[i].At("sourceUrl").s, "http") {
        StrictStreamOfKeeps(elems[i]);
      }
      var streams := FilterMap(elems, StrictStreamOf);
      forall i | 0 <= i < |streams| ensures StartsWith(streams[i].url, "http") {
        FilterMapMember(elems, StrictStreamOf, streams[i]);
        var j :| 0 <= j < |elems| && StrictStreamOf(elems[j]) == Some(streams[i]);
        StrictStreamOfKeeps(elems[j]);
      }
    }
  }

  /** `parse_complex_data`. */
  method ParseComplexData(data: Json) returns (r: Result<seq<EpisodeStream>, AppError>)
    ensures r == ComplexData(data)
  {
    var sources := data.At("data").At("episode").At("sourceUrls");
    if !sources.IsArray() {
      return Failure(ParsingError(InvalidSourcesMessage));
    }
    var elems := sources.items;
    if elems == [] {
      return Failure(NoStreamsAvailable);
    }
    r := CollectStrictStreams(elems);
  }

  /** The loop of `parse_complex_data`, which stops at the first entry
      without a string `sourceUrl`. */
  method CollectStrictStreams(elems: seq<Json>) returns (r: Result<seq<EpisodeStream>, AppError>)
    ensures r == StrictStreams(elems)
  {
    var streams: seq<EpisodeStream> := [];
    for k := 0 to |elems|
      invariant streams == FilterMap(elems[..k], StrictStreamOf)
      invariant forall i :: 0 <= i < k ==> HasUrl(elems[i])
    {
      var entry := elems[k];
      var url := entry.At("sourceUrl").AsStr();
      if url.None? {
        assert !HasUrl(elems[k]);
        return Failure(ParsingError(MissingUrlMessage));
      }
      FilterMapSnoc(elems[..k], entry, StrictStreamOf);
      assert elems[..k + 1] == elems[..k] + [entry];
      var provider := entry.At("sourceName").AsStr().GetOr(UnknownProvider);
      if StartsWith(url.value, "http") {
        streams := streams + [EpisodeStream(ParseQuality(entry).GetOr(0), url.value, provider)];
      }
    }
    assert elems[..|elems|] == elems;
    if streams == [] {
      return Failure(NoStreamsAvailable);
    }
    return Success(streams);
  }
}
