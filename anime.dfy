/** The `MalAnime` client: its mutable credentials, the header it derives
    from them, the query each endpoint builds from its options, and the
    unwrapping of the response envelope. The network is a function from the
    request sent to what came back. */
module Anime {

  import opened MalErrors
  import opened Strings
  import opened AnimeRoute
  import opened UriBuilder
  import opened Fetch

  const BaseUrl := "https://api.myanimelist.net/v2"

  /** The `paging` cursors of a list response (exposed, never followed). */
  datatype Paging = Paging(previous: Option<string>, next: Option<string>)

  /** A list response: `{ data: [...], paging }`. */
  datatype ListEnvelope<E> = ListEnvelope(data: seq<E>, paging: Paging)

  datatype NodeEntry<N> = NodeEntry(node: N)
  datatype RankedEntry<N> = RankedEntry(node: N, ranking: RankingInfo)

  /** What the ranking endpoint returns per entry: `{ anime, ranking }`. */
  datatype RankedAnime<N> = RankedAnime(anime: N, ranking: RankingInfo)

  /** The seasonal endpoint's `sort` option. */
  datatype SeasonSort = AnimeScore | AnimeNumListUsers
  {
    function Name(): (n: string)
      ensures n != ""
    {
      match this
      case AnimeScore => "anime_score"
      case AnimeNumListUsers => "anime_num_list_users"
    }
  }

  type Headers = map<string, string>

  /** What is fetched: a URL built by `_buildURI`, or a URI string put
      together by concatenation. */
  datatype Target = Query(url: Url) | Text(uri: string)

  datatype Request = Request(target: Target, headers: Headers)

  /** JavaScript truthiness of an optional string: set and not "". */
  predicate IsTruthy(s: Option<string>) {
    s.Some? && s.value != ""
  }

  /** JavaScript truthiness of an optional integral number: set and not 0. */
  predicate NumIsTruthy(n: Option<int>) {
    n.Some? && n.value != 0
  }

  /** The comma-joined names of a field list: "" exactly for the empty
      list. */
  function FieldListText(ds: seq<DetailField>): (t: string)
    ensures t == "" <==> ds == []
  {
    var names := DetailFieldNames(ds);
    JoinEmpty(names);
    Join(names)
  }

  /** `fields ? fields.join(",") : AllAnimeFields.join(",")`. An empty list
      is truthy, so it is joined too, to "". */
  function FieldsText(fields: Option<seq<AnimeField>>): (t: string)
    ensures t == "" <==> fields == Some([])
  {
    assert |AllAnimeFields| == 26;
    FieldListText(AsDetailFields(fields.GetOr(AllAnimeFields)))
  }

  /** `[fields ?? AllAnimeDetailFields].join(",")`: joining the one-element
      array renders the inner array, which is again its comma-join. */
  function DetailFieldsText(fields: Option<seq<DetailField>>): (t: string)
    ensures t == "" <==> fields == Some([])
  {
    assert |AllAnimeDetailFields| == 32;
    FieldListText(fields.GetOr(AllAnimeDetailFields))
  }

  /** The text of a non-empty field list splits back into its names. */
  lemma FieldListTextSplits(ds: seq<DetailField>)
    ensures ds != [] ==> Split(FieldListText(ds)) == DetailFieldNames(ds)
  {
    if ds != [] {
      SplitJoin(DetailFieldNames(ds));
    }
  }

  /** Unless the caller gave an empty list, the `fields` text of the list
      endpoints splits back into the names of the chosen fields: the given
      ones, every `Anime` field when none are given. */
  lemma FieldsTextSplits(fields: Option<seq<AnimeField>>)
    ensures fields != Some([]) ==> Split(FieldsText(fields)) == AnimeFieldNames(fields.GetOr(AllAnimeFields))
  {
    FieldListTextSplits(AsDetailFields(fields.GetOr(AllAnimeFields)));
  }

  /** The same for the detail endpoint, whose default is every
      `AnimeDetail` field. */
  lemma DetailFieldsTextSplits(fields: Option<seq<DetailField>>)
    ensures fields != Some([]) ==> Split(DetailFieldsText(fields)) == DetailFieldNames(fields.GetOr(AllAnimeDetailFields))
  {
    FieldListTextSplits(fields.GetOr(AllAnimeDetailFields));
  }

  /** A number option passed to the builder as it is: absent stays absent. */
  function OptionalNum(n: Option<int>): (v: ParamValue)
    ensures Skipped(v) <==> n.None?
    ensures n.Some? ==> v == Num(n.value)
  {
    match n
    case None => Undefined
    case Some(v) => Num(v)
  }

  /** The record `searchAnime` hands to the builder: `limit ?? 100`,
      `offset ?? 0`. Only `q` and `fields` can be skipped. */
  function SearchParams(q: string, limit: Option<int>, offset: Option<int>,
                        fields: Option<seq<AnimeField>>): (ps: seq<Param>)
    ensures |ps| == 4 && ps[0].0 == "q" && ps[1].0 == "limit" && ps[2].0 == "offset" && ps[3].0 == "fields"
    ensures Skipped(ps[0].1) <==> q == ""
    ensures ps[1].1 == Num(if limit.Some? then limit.value else 100)
    ensures ps[2].1 == Num(if offset.Some? then offset.value else 0)
    ensures Skipped(ps[3].1) <==> fields == Some([])
  {
    [("q", Str(q)),
     ("limit", Num(limit.GetOr(100))),
     ("offset", Num(offset.GetOr(0))),
     ("fields", Str(FieldsText(fields)))]
  }

  /** The record `getAnimeranking` hands to the builder: `limit` and
      `offset` fall back on truthiness, so 0 counts as absent. */
  function RankingParams(rankingType: RankingType, limit: Option<int>, offset: Option<int>,
                         fields: Option<seq<AnimeField>>): (ps: seq<Param>)
    ensures |ps| == 4 && ps[0].0 == "ranking_type" && ps[1].0 == "limit" && ps[2].0 == "offset" && ps[3].0 == "fields"
    ensures !Skipped(ps[0].1)
    ensures ps[1].1 == Num(if limit.Some? && limit.value != 0 then limit.value else 100)
    ensures ps[2].1 == Num(if offset.Some? && offset.value != 0 then offset.value else 0)
    ensures Skipped(ps[3].1) <==> fields == Some([])
  {
    [("ranking_type", Str(rankingType.Name())),
     ("limit", Num(if NumIsTruthy(limit) then limit.value else 100)),
     ("offset", Num(if NumIsTruthy(offset) then offset.value else 0)),
     ("fields", Str(FieldsText(fields)))]
  }

  /** The record `getSeasonalAnime` hands to the builder: no defaults, so
      each option is skipped exactly when it is absent. */
  function SeasonalParams(sort: Option<SeasonSort>, limit: Option<int>, offset: Option<int>,
                          fields: Option<seq<AnimeField>>): (ps: seq<Param>)
    ensures |ps| == 4 && ps[0].0 == "sort" && ps[1].0 == "limit" && ps[2].0 == "offset" && ps[3].0 == "fields"
    ensures Skipped(ps[0].1) <==> sort.None?
    ensures Skipped(ps[1].1) <==> limit.None?
    ensures Skipped(ps[2].1) <==> offset.None?
    ensures Skipped(ps[3].1) <==> fields == Some([])
  {
    [("sort", match sort case None => Undefined case Some(s) => Str(s.Name())),
     ("limit", OptionalNum(limit)),
     ("offset", OptionalNum(offset)),
     ("fields", Str(FieldsText(fields)))]
  }

  /** The record `getSuggestedAnime` hands to the builder: no defaults, so
      each option is skipped exactly when it is absent. */
  function SuggestionParams(limit: Option<int>, offset: Option<int>,
                            fields: Option<seq<AnimeField>>): (ps: seq<Param>)
    ensures |ps| == 3 && ps[0].0 == "limit" && ps[1].0 == "offset" && ps[2].0 == "fields"
    ensures Skipped(ps[0].1) <==> limit.None?
    ensures Skipped(ps[1].1) <==> offset.None?
    ensures Skipped(ps[2].1) <==> fields == Some([])
  {
    [("limit", OptionalNum(limit)),
     ("offset", OptionalNum(offset)),
     ("fields", Str(FieldsText(fields)))]
  }

  /** The seasonal endpoint's path: year and season are part of it. */
  function SeasonPath(base: string, year: int, season: Quarter): (p: string)
    ensures |p| > |base| + 14
  {
    base + "/anime/season/" + IntToDecimal(year) + "/" + season.Name()
  }

  /** Year and season can be read back from what follows `/anime/season/`. */
  lemma SeasonPathReadsBack(base: string, year: int, season: Quarter)
    ensures var p := SeasonPath(base, year, season);
              && p[..|base| + 14] == base + "/anime/season/"
              && ParseInt(TakeUntil(p[|base| + 14..], '/')) == year
              && DropUntil(p[|base| + 14..], '/') == "/" + season.Name()
  {
    var prefix, digits, name := base + "/anime/season/", IntToDecimal(year), season.Name();
    var p := SeasonPath(base, year, season);
    assert p == prefix + digits + "/" + name;
    assert p[|prefix|..] == digits + ['/'] + name;
    NumberBeforeSeparator(year, '/', name);
  }

  /** The detail endpoint's URI, built by plain concatenation. */
  function DetailUri(base: string, animeId: int, fields: Option<seq<DetailField>>): (u: string)
    ensures |u| > |base| + 7
  {
    base + "/anime/" + IntToDecimal(animeId) + "?fields=" + DetailFieldsText(fields)
  }

  /** The shape of the detail URI for any field text. */
  lemma DetailUriShape(base: string, animeId: int, text: string)
    ensures var u := base + "/anime/" + IntToDecimal(animeId) + "?fields=" + text;
              && u[..|base| + 7] == base + "/anime/"
              && ParseInt(TakeUntil(u[|base| + 7..], '?')) == animeId
              && DropUntil(u[|base| + 7..], '?') == "?fields=" + text
  {
    var prefix, digits := base + "/anime/", IntToDecimal(animeId);
    var u := prefix + digits + "?fields=" + text;
    assert u[|prefix|..] == digits + ['?'] + ("fields=" + text);
    NumberBeforeSeparator(animeId, '?', "fields=" + text);
  }

  /** The id and the field text can be read back from what follows `/anime/`. */
  lemma DetailUriReadsBack(base: string, animeId: int, fields: Option<seq<DetailField>>)
    ensures var u := DetailUri(base, animeId, fields);
              && u[..|base| + 7] == base + "/anime/"
              && ParseInt(TakeUntil(u[|base| + 7..], '?')) == animeId
              && DropUntil(u[|base| + 7..], '?') == "?fields=" + DetailFieldsText(fields)
  {
    DetailUriShape(base, animeId, DetailFieldsText(fields));
  }

  /** `data.map((anime) => anime.node)`. */
  function Nodes<N>(entries: seq<NodeEntry<N>>): (nodes: seq<N>)
    ensures |nodes| == |entries|
    ensures forall i :: 0 <= i < |entries| ==> nodes[i] == entries[i].node
  {
    if entries == [] then [] else [entries[0].node] + Nodes(entries[1..])
  }

  /** `data.map((anime) => ({ anime: anime.node, ranking: anime.ranking }))`. */
  function Rankings<N>(entries: seq<RankedEntry<N>>): (ranked: seq<RankedAnime<N>>)
    ensures |ranked| == |entries|
    ensures forall i :: 0 <= i < |entries| ==>
              ranked[i] == RankedAnime(entries[i].node, entries[i].ranking)
  {
    if entries == [] then []
    else [RankedAnime(entries[0].node, entries[0].ranking)] + Rankings(entries[1..])
  }

  /** A list endpoint's result: the nodes of the envelope on success, the
      fetch error untouched on failure. */
  function UnwrapList<N>(res: Result<ListEnvelope<NodeEntry<N>>>): (r: Result<seq<N>>)
    ensures r.Ok? <==> res.Ok?
    ensures res.Err? ==> r.error == res.error
    ensures res.Ok? ==> (|r.value| == |res.value.data| &&
              forall i :: 0 <= i < |res.value.data| ==> r.value[i] == res.value.data[i].node)
  {
    match res
    case Ok(envelope) => Ok(Nodes(envelope.data))
    case Err(e) => Err(e)
  }

  /** The ranking endpoint's result: node and ranking of every entry, in
      order, on success; the fetch error untouched on failure. */
  function UnwrapRanking<N>(res: Result<ListEnvelope<RankedEntry<N>>>): (r: Result<seq<RankedAnime<N>>>)
    ensures r.Ok? <==> res.Ok?
    ensures res.Err? ==> r.error == res.error
    ensures res.Ok? ==> (|r.value| == |res.value.data| &&
              forall i :: 0 <= i < |res.value.data| ==>
                r.value[i].anime == res.value.data[i].node && r.value[i].ranking == res.value.data[i].ranking)
  {
    match res
    case Ok(envelope) => Ok(Rankings(envelope.data))
    case Err(e) => Err(e)
  }

  /** True when some pair of the query has the given key. */
  predicate HasKey(query: seq<QueryPair>, key: string) {
    exists i :: 0 <= i < |query| && query[i].0 == key
  }

  /** The pair the builder keeps for the `fields` entry, if any. */
  function FieldsPair(fields: Option<seq<AnimeField>>): (pairs: seq<QueryPair>) {
    if fields == Some([]) then [] else [("fields", FieldsText(fields))]
  }

  lemma FieldsPairKept(fields: Option<seq<AnimeField>>)
    ensures PairFor(("fields", Str(FieldsText(fields)))) == FieldsPair(fields)
  {
  }

  /** The query `searchAnime` sends: `q` unless it is ""; then `limit`
      (100 only when absent, so 0 is sent as "0") and `offset` (0 when
      absent), both always present; then `fields` unless the caller gave an
      empty list. */
  lemma SearchQuery(q: string, limit: Option<int>, offset: Option<int>, fields: Option<seq<AnimeField>>)
    ensures Appended(SearchParams(q, limit, offset, fields)) ==
              (if q == "" then [] else [("q", q)]) +
              [("limit", IntToDecimal(limit.GetOr(100))), ("offset", IntToDecimal(offset.GetOr(0)))] +
              FieldsPair(fields)
  {
    var p0, p1, p2, p3 := ("q", Str(q)), ("limit", Num(limit.GetOr(100))),
                          ("offset", Num(offset.GetOr(0))), ("fields", Str(FieldsText(fields)));
    assert SearchParams(q, limit, offset, fields) == [p0, p1, p2, p3];
    AppendedFour(p0, p1, p2, p3);
    assert PairFor(p0) == (if q == "" then [] else [("q", q)]);
    assert PairFor(p1) + PairFor(p2) ==
             [("limit", IntToDecimal(limit.GetOr(100))), ("offset", IntToDecimal(offset.GetOr(0)))];
    assert PairFor(p0) + PairFor(p1) + PairFor(p2) == PairFor(p0) + (PairFor(p1) + PairFor(p2));
    FieldsPairKept(fields);
  }

  /** The query `getAnimeranking` sends: `ranking_type` first, then `limit`
      (100 when absent or 0) and `offset` (0 when absent or 0), then
      `fields` unless the caller gave an empty list. */
  lemma RankingQuery(rankingType: RankingType, limit: Option<int>, offset: Option<int>,
                     fields: Option<seq<AnimeField>>)
    ensures Appended(RankingParams(rankingType, limit, offset, fields)) ==
              [("ranking_type", rankingType.Name()),
               ("limit", IntToDecimal(if NumIsTruthy(limit) then limit.value else 100)),
               ("offset", IntToDecimal(if NumIsTruthy(offset) then offset.value else 0))] +
              FieldsPair(fields)
  {
    var ps := RankingParams(rankingType, limit, offset, fields);
    AppendedFour(ps[0], ps[1], ps[2], ps[3]);
    FieldsPairKept(fields);
  }

  /** The two defaulting rules differ on a zero limit: search sends it, ... */
  lemma ZeroLimitSearch(q: string, fields: Option<seq<AnimeField>>)
    ensures ("limit", "0") in Appended(SearchParams(q, Some(0), None, fields))
  {
    SearchQuery(q, Some(0), None, fields);
    DefaultDecimals();
  }

  /** In a query of `ranking_type`, `limit` and `offset` pairs followed by
      `fields` pairs, the one `limit` pair carries the given text. */
  lemma OnlyLimitPair(name: string, limitText: string, offsetText: string, fp: seq<QueryPair>)
    requires forall k :: 0 <= k < |fp| ==> fp[k].0 == "fields"
    ensures ("limit", limitText) in [("ranking_type", name), ("limit", limitText), ("offset", offsetText)] + fp
    ensures forall t :: ("limit", t) in [("ranking_type", name), ("limit", limitText), ("offset", offsetText)] + fp ==>
              t == limitText
  {
    var q := [("ranking_type", name), ("limit", limitText), ("offset", offsetText)] + fp;
    assert q[1] == ("limit", limitText);
    forall t | ("limit", t) in q ensures t == limitText {
      var k :| 0 <= k < |q| && q[k] == ("limit", t);
      assert k < 3;
    }
  }

  /** The ranking query holds exactly one `limit` pair, and it carries the
      limit after the truthiness default. */
  lemma RankingLimitPair(rankingType: RankingType, limit: Option<int>, offset: Option<int>,
                         fields: Option<seq<AnimeField>>)
    ensures ("limit", IntToDecimal(if NumIsTruthy(limit) then limit.value else 100))
              in Appended(RankingParams(rankingType, limit, offset, fields))
    ensures forall t :: ("limit", t) in Appended(RankingParams(rankingType, limit, offset, fields)) ==>
              t == IntToDecimal(if NumIsTruthy(limit) then limit.value else 100)
  {
    RankingQuery(rankingType, limit, offset, fields);
    OnlyLimitPair(rankingType.Name(), IntToDecimal(if NumIsTruthy(limit) then limit.value else 100),
                  IntToDecimal(if NumIsTruthy(offset) then offset.value else 0), FieldsPair(fields));
  }

  /** ... while ranking replaces it by 100. */
  lemma ZeroLimitRanking(rankingType: RankingType, fields: Option<seq<AnimeField>>)
    ensures ("limit", "100") in Appended(RankingParams(rankingType, Some(0), None, fields))
    ensures ("limit", "0") !in Appended(RankingParams(rankingType, Some(0), None, fields))
  {
    RankingLimitPair(rankingType, Some(0), None, fields);
    DefaultDecimals();
  }

  /** The optional pair of a number option: none when it is absent. */
  function NumPair(key: string, n: Option<int>): (pairs: seq<QueryPair>) {
    match n
    case None => []
    case Some(v) => [(key, IntToDecimal(v))]
  }

  /** The optional `sort` pair of the seasonal query. */
  function SortPair(sort: Option<SeasonSort>): (pairs: seq<QueryPair>) {
    match sort
    case None => []
    case Some(s) => [("sort", s.Name())]
  }

  /** The query `getSeasonalAnime` sends: `sort`, `limit` and `offset` only
      when given, as given; `fields` unless the caller gave an empty list. */
  lemma SeasonalQuery(sort: Option<SeasonSort>, limit: Option<int>, offset: Option<int>,
                      fields: Option<seq<AnimeField>>)
    ensures Appended(SeasonalParams(sort, limit, offset, fields)) ==
              SortPair(sort) + NumPair("limit", limit) + NumPair("offset", offset) + FieldsPair(fields)
  {
    var p0, p1, p2, p3 := ("sort", match sort case None => Undefined case Some(s) => Str(s.Name())),
                          ("limit", OptionalNum(limit)), ("offset", OptionalNum(offset)),
                          ("fields", Str(FieldsText(fields)));
    assert SeasonalParams(sort, limit, offset, fields) == [p0, p1, p2, p3];
    AppendedFour(p0, p1, p2, p3);
    assert PairFor(p0) == SortPair(sort);
    assert PairFor(p1) == NumPair("limit", limit);
    assert PairFor(p2) == NumPair("offset", offset);
    FieldsPairKept(fields);
  }

  /** The query `getSuggestedAnime` sends: `limit` and `offset` only when
      given, as given; `fields` unless the caller gave an empty list. */
  lemma SuggestionQuery(limit: Option<int>, offset: Option<int>, fields: Option<seq<AnimeField>>)
    ensures Appended(SuggestionParams(limit, offset, fields)) ==
              NumPair("limit", limit) + NumPair("offset", offset) + FieldsPair(fields)
  {
    var p0, p1, p2 := ("limit", OptionalNum(limit)), ("offset", OptionalNum(offset)),
                      ("fields", Str(FieldsText(fields)));
    assert SuggestionParams(limit, offset, fields) == [p0, p1, p2];
    AppendedThree(p0, p1, p2);
    assert PairFor(p0) == NumPair("limit", limit);
    assert PairFor(p1) == NumPair("offset", offset);
    FieldsPairKept(fields);
  }

  lemma HasKeyConcat(a: seq<QueryPair>, b: seq<QueryPair>, key: string)
    ensures HasKey(a + b, key) <==> HasKey(a, key) || HasKey(b, key)
  {
    if HasKey(a + b, key) {
      var i :| 0 <= i < |a + b| && (a + b)[i].0 == key;
      if i >= |a| {
        assert b[i - |a|].0 == key;
      }
    }
    if HasKey(b, key) {
      var j :| 0 <= j < |b| && b[j].0 == key;
      assert (a + b)[|a| + j].0 == key;
    }
    if HasKey(a, key) {
      var j :| 0 <= j < |a| && a[j].0 == key;
      assert (a + b)[j].0 == key;
    }
  }

  lemma HasKeyNumPair(name: string, n: Option<int>, key: string)
    ensures HasKey(NumPair(name, n), key) <==> n.Some? && name == key
  {
    if n.Some? && name == key {
      assert NumPair(name, n)[0].0 == key;
    }
  }

  lemma HasKeyFieldsPair(fields: Option<seq<AnimeField>>, key: string)
    ensures HasKey(FieldsPair(fields), key) ==> key == "fields"
  {
  }

  lemma HasKeySortPair(sort: Option<SeasonSort>, key: string)
    ensures HasKey(SortPair(sort), key) <==> sort.Some? && key == "sort"
  {
    if sort.Some? && key == "sort" {
      assert SortPair(sort)[0].0 == key;
    }
  }

  /** Seasonal requests get no defaults: `sort`, `limit` and `offset` are
      in the query exactly when the caller gave them. */
  lemma SeasonalNoDefaults(sort: Option<SeasonSort>, limit: Option<int>, offset: Option<int>,
                           fields: Option<seq<AnimeField>>, key: string)
    requires key in {"sort", "limit", "offset"}
    ensures HasKey(Appended(SeasonalParams(sort, limit, offset, fields)), key) <==>
              match key
              case "sort" => sort.Some?
              case "limit" => limit.Some?
              case _ => offset.Some?
  {
    SeasonalQuery(sort, limit, offset, fields);
    var sp, lp, op, fp := SortPair(sort), NumPair("limit", limit), NumPair("offset", offset), FieldsPair(fields);
    HasKeyConcat(sp + lp + op, fp, key);
    HasKeyConcat(sp + lp, op, key);
    HasKeyConcat(sp, lp, key);
    HasKeySortPair(sort, key);
    HasKeyNumPair("limit", limit, key);
    HasKeyNumPair("offset", offset, key);
    HasKeyFieldsPair(fields, key);
  }

  /** Suggestion requests get no defaults: `limit` and `offset` are in the
      query exactly when the caller gave them. */
  lemma SuggestionsNoDefaults(limit: Option<int>, offset: Option<int>, fields: Option<seq<AnimeField>>, key: string)
    requires key in {"limit", "offset"}
    ensures HasKey(Appended(SuggestionParams(limit, offset, fields)), key) <==>
              if key == "limit" then limit.Some? else offset.Some?
  {
    SuggestionQuery(limit, offset, fields);
    var lp, op, fp := NumPair("limit", limit), NumPair("offset", offset), FieldsPair(fields);
    HasKeyConcat(lp + op, fp, key);
    HasKeyConcat(lp, op, key);
    HasKeyNumPair("limit", limit, key);
    HasKeyNumPair("offset", offset, key);
    HasKeyFieldsPair(fields, key);
  }

  lemma {:induction false} DetailFieldNamesConcat(a: seq<DetailField>, b: seq<DetailField>)
    ensures DetailFieldNames(a + b) == DetailFieldNames(a) + DetailFieldNames(b)
  {
  }

  /** The comma-joined names of a detail list that extends an `Anime` list. */
  lemma DetailTextExtends(fs: seq<AnimeField>)
    requires |fs| >= 1
    ensures Join(DetailFieldNames(AsDetailFields(fs) + DetailOnlyFields)) ==
              Join(AnimeFieldNames(fs)) + "," + Join(DetailFieldNames(DetailOnlyFields))
  {
    DetailFieldNamesConcat(AsDetailFields(fs), DetailOnlyFields);
    JoinAppend(AnimeFieldNames(fs), DetailFieldNames(DetailOnlyFields));
  }

  const DetailOnlyNames: seq<string> :=
    ["pictures", "background", "related_anime", "related_manga", "recommendations", "statistics"]

  lemma DetailOnlyNamesAre()
    ensures DetailFieldNames(DetailOnlyFields) == DetailOnlyNames
  {
  }

  /** The names of a detail list that extends an `Anime` list: its text is
      the `Anime` list's text, a comma and the six detail-only names, and it
      splits back into both name lists, one after the other. */
  lemma DetailTextOf(fs: seq<AnimeField>, ds: seq<DetailField>)
    requires |fs| >= 1 && ds == AsDetailFields(fs) + DetailOnlyFields
    ensures Join(DetailFieldNames(ds)) == Join(AnimeFieldNames(fs)) + "," + Join(DetailOnlyNames)
    ensures Split(Join(DetailFieldNames(ds))) == AnimeFieldNames(fs) + DetailOnlyNames
  {
    DetailTextExtends(fs);
    DetailOnlyNamesAre();
    DetailFieldNamesConcat(AsDetailFields(fs), DetailOnlyFields);
    SplitJoin(DetailFieldNames(ds));
  }

  /** Without a field list the detail URI asks for every `AnimeDetail`
      field: the text of the default `Anime` list, a comma, then the six
      detail-only names; it splits back into the two name lists. */
  lemma DetailDefaultFields()
    ensures DetailFieldsText(None) == FieldsText(None) + "," + Join(DetailOnlyNames)
    ensures Split(DetailFieldsText(None)) == AnimeFieldNames(AllAnimeFields) + DetailOnlyNames
  {
    AllDetailFieldsExtendAllFields();
    DetailTextOf(AllAnimeFields, AllAnimeDetailFields);
  }

  /** A client holding a client id and, optionally, an access token; both
      can be replaced at any time and are read when a request is built. */
  class MalAnime {
    var accessToken: Option<string>
    var clientId: string
    const url: string

    constructor(clientId: string, accessToken: Option<string>)
      ensures this.clientId == clientId && this.accessToken == accessToken
      ensures url == BaseUrl
    {
      this.clientId := clientId;
      this.accessToken := accessToken;
      url := BaseUrl;
    }

    /** `genenrateHeader`: exactly one scheme, a bearer token when the
        token is truthy, the client id otherwise. */
    function GenerateHeader(): (h: Headers)
      reads this
      ensures h.Keys == {"Authorization"} || h.Keys == {"X-MAL-CLIENT-ID"}
      ensures "Authorization" in h <==> IsTruthy(accessToken)
      ensures "X-MAL-CLIENT-ID" in h <==> !IsTruthy(accessToken)
      ensures IsTruthy(accessToken) ==> h["Authorization"] == "Bearer " + accessToken.value
      ensures !IsTruthy(accessToken) ==> h["X-MAL-CLIENT-ID"] == clientId
    {
      if IsTruthy(accessToken) then map["Authorization" := "Bearer " + accessToken.value]
      else map["X-MAL-CLIENT-ID" := clientId]
    }

    /** Replaces the token and nothing else; an empty token switches the
        header back to the client id. */
    method SetAccessToken(token: string)
      modifies this
      ensures accessToken == Some(token) && clientId == old(clientId)
      ensures token != "" ==> GenerateHeader() == map["Authorization" := "Bearer " + token]
      ensures token == "" ==> GenerateHeader() == map["X-MAL-CLIENT-ID" := clientId]
    {
      accessToken := Some(token);
    }

    /** Replaces the client id and nothing else. */
    method SetClientId(id: string)
      modifies this
      ensures clientId == id && accessToken == old(accessToken)
      ensures !IsTruthy(accessToken) ==> GenerateHeader() == map["X-MAL-CLIENT-ID" := id]
    {
      clientId := id;
    }

    /** `searchAnime`: the collection endpoint with the search record; the
        envelope's nodes on success. */
    method SearchAnime<N>(q: string, limit: Option<int>, offset: Option<int>, fields: Option<seq<AnimeField>>,
                          server: Request -> FetchOutcome<ListEnvelope<NodeEntry<N>>>)
      returns (req: Request, r: Result<seq<N>>)
      ensures req.headers == GenerateHeader()
      ensures req.target == Query(Url(url + "/anime", Appended(SearchParams(q, limit, offset, fields))))
      ensures r == UnwrapList(MalFetch(server(req)))
    {
      var reqOption := GenerateHeader();
      var uri := BuildUri(Url(url + "/anime", []), SearchParams(q, limit, offset, fields));
      req := Request(Query(uri), reqOption);
      var res := MalFetch(server(req));
      if res.Ok? {
        r := Ok(Nodes(res.value.data));
      } else {
        r := Err(res.error);
      }
    }

    /** `getAnimeDetail`: the per-id URI by concatenation; the fetch result
        is returned as it is. */
    method GetAnimeDetail<D>(animeId: int, fields: Option<seq<DetailField>>, server: Request -> FetchOutcome<D>)
      returns (req: Request, r: Result<D>)
      ensures req == Request(Text(DetailUri(url, animeId, fields)), GenerateHeader())
      ensures r == MalFetch(server(req))
    {
      var reqOption := GenerateHeader();
      var uri := DetailUri(url, animeId, fields);
      req := Request(Text(uri), reqOption);
      r := MalFetch(server(req));
    }

    /** `getAnimeranking`: the ranking endpoint with the ranking record;
        each entry's node and ranking on success. */
    method GetAnimeRanking<N>(rankingType: RankingType, limit: Option<int>, offset: Option<int>,
                              fields: Option<seq<AnimeField>>,
                              server: Request -> FetchOutcome<ListEnvelope<RankedEntry<N>>>)
      returns (req: Request, r: Result<seq<RankedAnime<N>>>)
      ensures req.headers == GenerateHeader()
      ensures req.target == Query(Url(url + "/anime/ranking", Appended(RankingParams(rankingType, limit, offset, fields))))
      ensures r == UnwrapRanking(MalFetch(server(req)))
    {
      var reqOption := GenerateHeader();
      var uri := BuildUri(Url(url + "/anime/ranking", []), RankingParams(rankingType, limit, offset, fields));
      req := Request(Query(uri), reqOption);
      var res := MalFetch(server(req));
      if res.Ok? {
        r := Ok(Rankings(res.value.data));
      } else {
        r := Err(res.error);
      }
    }

    /** `getSeasonalAnime`: year and season in the path, the seasonal
        record in the query; the envelope's nodes on success. */
    method GetSeasonalAnime<N>(year: int, season: Quarter, sort: Option<SeasonSort>, limit: Option<int>,
                               offset: Option<int>, fields: Option<seq<AnimeField>>,
                               server: Request -> FetchOutcome<ListEnvelope<NodeEntry<N>>>)
      returns (req: Request, r: Result<seq<N>>)
      ensures req.headers == GenerateHeader()
      ensures req.target == Query(Url(SeasonPath(url, year, season), Appended(SeasonalParams(sort, limit, offset, fields))))
      ensures r == UnwrapList(MalFetch(server(req)))
    {
      var reqOption := GenerateHeader();
      var uri := BuildUri(Url(SeasonPath(url, year, season), []), SeasonalParams(sort, limit, offset, fields));
      req := Request(Query(uri), reqOption);
      var res := MalFetch(server(req));
      if res.Ok? {
        r := Ok(Nodes(res.value.data));
      } else {
        r := Err(res.error);
      }
    }

    /** `getSuggestedAnime`: without a truthy token it answers 401 locally
        and sends nothing (`sent == None`); with one, the request carries
        the bearer header and the suggestion record. */
    method GetSuggestedAnime<N>(limit: Option<int>, offset: Option<int>, fields: Option<seq<AnimeField>>,
                                server: Request -> FetchOutcome<ListEnvelope<NodeEntry<N>>>)
      returns (sent: Option<Request>, r: Result<seq<N>>)
      ensures !IsTruthy(accessToken) ==> sent == None && r == Err(MalError("Access token required", 401))
      ensures IsTruthy(accessToken) ==>
                && sent.Some?
                && sent.value.headers == map["Authorization" := "Bearer " + accessToken.value]
                && sent.value.target == Query(Url(url + "/anime/suggestions", Appended(SuggestionParams(limit, offset, fields))))
                && r == UnwrapList(MalFetch(server(sent.value)))
    {
      if !IsTruthy(accessToken) {
        return None, Err(MalError("Access token required", 401));
      }
      var reqOption := GenerateHeader();
      var uri := BuildUri(Url(url + "/anime/suggestions", []), SuggestionParams(limit, offset, fields));
      var req := Request(Query(uri), reqOption);
      sent := Some(req);
      var res := MalFetch(server(req));
      if res.Ok? {
        r := Ok(Nodes(res.value.data));
      } else {
        r := Err(res.error);
      }
    }
  }
}
