/** Field-name enumerations and the constant "all fields" lists of the
    anime routes, together with the ranking-type and season enumerations. */
module AnimeRoute {

  import opened MalErrors
  import opened Strings

  /** The keys of the `Anime` record, in the order the record declares them. */
  datatype AnimeField =
    | Id | Title | MainPicture | AlternativeTitles | StartDate | EndDate
    | Sypnosis | Mean | Rank | Popularity | NumListUsers | NumScoringUsers
    | Nsfw | Genres | CreatedAt | UpdatedAt | MediaType | Status
    | MyListStatus | NumEpisodes | StartSeason | Broadcast | Source
    | AverageEpisodeDuration | Rating | Studios
  {
    /** The key as it is written on the wire (the record's own spelling). */
    function Name(): (n: string)
      ensures n != "" && NoComma(n)
    {
      match this
      case Id => "id"
      case Title => "title"
      case MainPicture => "main_picture"
      case AlternativeTitles => "alternative_titles"
      case StartDate => "start_date"
      case EndDate => "end_date"
      case Sypnosis => "sypnosis"
      case Mean => "mean"
      case Rank => "rank"
      case Popularity => "popularity"
      case NumListUsers => "num_list_users"
      case NumScoringUsers => "num_scoring_users"
      case Nsfw => "nsfw"
      case Genres => "genres"
      case CreatedAt => "created_at"
      case UpdatedAt => "updated_at"
      case MediaType => "media_type"
      case Status => "status"
      case MyListStatus => "my_list_status"
      case NumEpisodes => "num_episodes"
      case StartSeason => "start_season"
      case Broadcast => "broadcast"
      case Source => "source"
      case AverageEpisodeDuration => "average_episode_duration"
      case Rating => "rating"
      case Studios => "studios"
    }
  }

  /** The keys of `AnimeDetail`: those of `Anime` plus six detail-only keys. */
  datatype DetailField =
    | Base(field: AnimeField)
    | Pictures | Background | RelatedAnime | RelatedManga | Recommendations | Statistics
  {
    function Name(): (n: string)
      ensures n != "" && NoComma(n)
    {
      match this
      case Base(f) => f.Name()
      case Pictures => "pictures"
      case Background => "background"
      case RelatedAnime => "related_anime"
      case RelatedManga => "related_manga"
      case Recommendations => "recommendations"
      case Statistics => "statistics"
    }
  }

  /** `rankingType`: the ranking categories the ranking endpoint accepts. */
  datatype RankingType = All | Airing | Upcoming | Tv | Ova | Movie | Special | ByPopularity | Favorite
  {
    function Name(): (n: string)
      ensures n != ""
    {
      match this
      case All => "all"
      case Airing => "airing"
      case Upcoming => "upcoming"
      case Tv => "tv"
      case Ova => "ova"
      case Movie => "movie"
      case Special => "special"
      case ByPopularity => "bypopularity"
      case Favorite => "favorite"
    }
  }

  /** `quarter`: the four seasons of the seasonal endpoint's path. */
  datatype Quarter = Winter | Spring | Summer | Fall
  {
    function Name(): (n: string)
      ensures n != ""
    {
      match this
      case Winter => "winter"
      case Spring => "spring"
      case Summer => "summer"
      case Fall => "fall"
    }
  }

  /** A ranking entry's position: `rankingInfo`. */
  datatype RankingInfo = RankingInfo(rank: int, previousRank: Option<int>)

  /** No element occurs twice. */
  predicate NoDuplicates<T(==)>(s: seq<T>) {
    forall i, j :: 0 <= i < j < |s| ==> s[i] != s[j]
  }

  /** The wire names of a field list, in order. */
  function DetailFieldNames(fs: seq<DetailField>): (names: seq<string>)
    ensures |names| == |fs|
    ensures forall i :: 0 <= i < |fs| ==> names[i] == fs[i].Name()
  {
    seq(|fs|, i requires 0 <= i < |fs| => fs[i].Name())
  }

  /** The wire names of an `Anime` key list: those of its detail view,
      which names every key as `Anime` does. */
  function AnimeFieldNames(fs: seq<AnimeField>): (names: seq<string>)
    ensures |names| == |fs|
    ensures forall i :: 0 <= i < |fs| ==> names[i] == fs[i].Name()
  {
    DetailFieldNames(AsDetailFields(fs))
  }

  /** `AllAnimeFields`, in the order the source lists it. */
  const AllAnimeFields: seq<AnimeField> := [
    Status, Nsfw, Studios, Rating, AverageEpisodeDuration, Source, Broadcast,
    StartSeason, Id, Mean, Rank, Title, Genres, EndDate, Sypnosis, StartDate,
    Popularity, CreatedAt, UpdatedAt, MediaType, MainPicture, NumEpisodes,
    NumListUsers, MyListStatus, NumScoringUsers, AlternativeTitles
  ]

  /** `AllAnimeDetailFields`, in the order the source lists it. */
  const AllAnimeDetailFields: seq<DetailField> := [
    Base(Status), Base(Nsfw), Base(Studios), Base(Rating), Base(AverageEpisodeDuration),
    Base(Source), Base(Broadcast), Base(StartSeason), Base(Id), Base(Mean), Base(Rank),
    Base(Title), Base(Genres), Base(EndDate), Base(Sypnosis), Base(StartDate),
    Base(Popularity), Base(CreatedAt), Base(UpdatedAt), Base(MediaType), Base(MainPicture),
    Base(NumEpisodes), Base(NumListUsers), Base(MyListStatus), Base(NumScoringUsers),
    Base(AlternativeTitles),
    Pictures, Background, RelatedAnime, RelatedManga, Recommendations, Statistics
  ]

  const AllRankingTypes: seq<RankingType> :=
    [All, Airing, Upcoming, Tv, Ova, Movie, Special, ByPopularity, Favorite]

  const AllQuarters: seq<Quarter> := [Winter, Spring, Summer, Fall]

  /** The six keys `AnimeDetail` adds to `Anime`, in the source's order. */
  const DetailOnlyFields: seq<DetailField> :=
    [Pictures, Background, RelatedAnime, RelatedManga, Recommendations, Statistics]

  /** Views keys of `Anime` as keys of `AnimeDetail`, which extends it. */
  function AsDetailFields(fs: seq<AnimeField>): (ds: seq<DetailField>)
    ensures |ds| == |fs|
    ensures forall i :: 0 <= i < |fs| ==> ds[i] == Base(fs[i])
  {
    seq(|fs|, i requires 0 <= i < |fs| => Base(fs[i]))
  }

  lemma {:induction false} AnimeFieldListed(f: AnimeField)
    ensures f in AllAnimeFields
  {
    match f
    case Id =>
    case Title =>
    case MainPicture =>
    case AlternativeTitles =>
    case StartDate =>
    case EndDate =>
    case Sypnosis =>
    case Mean =>
    case Rank =>
    case Popularity =>
    case NumListUsers =>
    case NumScoringUsers =>
    case Nsfw =>
    case Genres =>
    case CreatedAt =>
    case UpdatedAt =>
    case MediaType =>
    case Status =>
    case MyListStatus =>
    case NumEpisodes =>
    case StartSeason =>
    case Broadcast =>
    case Source =>
    case AverageEpisodeDuration =>
    case Rating =>
    case Studios =>
  }

  /** `AllAnimeFields` has 26 entries, none twice, and lists every key of
      `Anime`, so it is a permutation of the record's keys; `id` and `title`
      are among them. */
  lemma AllAnimeFieldsCoverAnime()
    ensures |AllAnimeFields| == 26
    ensures NoDuplicates(AllAnimeFields)
    ensures forall f: AnimeField :: f in AllAnimeFields
    ensures Id in AllAnimeFields && Title in AllAnimeFields
  {
    forall f: AnimeField ensures f in AllAnimeFields {
      AnimeFieldListed(f);
    }
  }

  /** Reads a wire name back: the inverse of `AnimeField.Name`. It looks at
      the length first, so that each name is only compared with the few
      names of the same length. */
  function AnimeFieldFromName(s: string): Option<AnimeField> {
    match |s|
    case 2 => if s == "id" then Some(Id) else None
    case 4 =>
      if s == "mean" then Some(Mean)
      else if s == "rank" then Some(Rank)
      else if s == "nsfw" then Some(Nsfw)
      else None
    case 5 => if s == "title" then Some(Title) else None
    case 6 =>
      if s == "genres" then Some(Genres)
      else if s == "status" then Some(Status)
      else if s == "source" then Some(Source)
      else if s == "rating" then Some(Rating)
      else None
    case 7 => if s == "studios" then Some(Studios) else None
    case 8 =>
      if s == "end_date" then Some(EndDate)
      else if s == "sypnosis" then Some(Sypnosis)
      else None
    case 9 => if s == "broadcast" then Some(Broadcast) else None
    case 10 =>
      if s == "start_date" then Some(StartDate)
      else if s == "popularity" then Some(Popularity)
      else if s == "created_at" then Some(CreatedAt)
      else if s == "updated_at" then Some(UpdatedAt)
      else if s == "media_type" then Some(MediaType)
      else None
    case 12 =>
      if s == "main_picture" then Some(MainPicture)
      else if s == "num_episodes" then Some(NumEpisodes)
      else if s == "start_season" then Some(StartSeason)
      else None
    case 14 =>
      if s == "num_list_users" then Some(NumListUsers)
      else if s == "my_list_status" then Some(MyListStatus)
      else None
    case 17 => if s == "num_scoring_users" then Some(NumScoringUsers) else None
    case 18 => if s == "alternative_titles" then Some(AlternativeTitles) else None
    case 24 => if s == "average_episode_duration" then Some(AverageEpisodeDuration) else None
    case _ => None
  }

  lemma {:induction false} AnimeFieldNameRoundTrip(f: AnimeField)
    ensures AnimeFieldFromName(f.Name()) == Some(f)
  {
    match f
    case Id => assert AnimeFieldFromName("id") == Some(Id);
    case Title => assert AnimeFieldFromName("title") == Some(Title);
    case MainPicture => assert AnimeFieldFromName("main_picture") == Some(MainPicture);
    case AlternativeTitles => assert AnimeFieldFromName("alternative_titles") == Some(AlternativeTitles);
    case StartDate => assert AnimeFieldFromName("start_date") == Some(StartDate);
    case EndDate => assert AnimeFieldFromName("end_date") == Some(EndDate);
    case Sypnosis => assert AnimeFieldFromName("sypnosis") == Some(Sypnosis);
    case Mean => assert AnimeFieldFromName("mean") == Some(Mean);
    case Rank => assert AnimeFieldFromName("rank") == Some(Rank);
    case Popularity => assert AnimeFieldFromName("popularity") == Some(Popularity);
    case NumListUsers => assert AnimeFieldFromName("num_list_users") == Some(NumListUsers);
    case NumScoringUsers => assert AnimeFieldFromName("num_scoring_users") == Some(NumScoringUsers);
    case Nsfw => assert AnimeFieldFromName("nsfw") == Some(Nsfw);
    case Genres => assert AnimeFieldFromName("genres") == Some(Genres);
    case CreatedAt => assert AnimeFieldFromName("created_at") == Some(CreatedAt);
    case UpdatedAt => assert AnimeFieldFromName("updated_at") == Some(UpdatedAt);
    case MediaType => assert AnimeFieldFromName("media_type") == Some(MediaType);
    case Status => assert AnimeFieldFromName("status") == Some(Status);
    case MyListStatus => assert AnimeFieldFromName("my_list_status") == Some(MyListStatus);
    case NumEpisodes => assert AnimeFieldFromName("num_episodes") == Some(NumEpisodes);
    case StartSeason => assert AnimeFieldFromName("start_season") == Some(StartSeason);
    case Broadcast => assert AnimeFieldFromName("broadcast") == Some(Broadcast);
    case Source => assert AnimeFieldFromName("source") == Some(Source);
    case AverageEpisodeDuration => assert AnimeFieldFromName("average_episode_duration") == Some(AverageEpisodeDuration);
    case Rating => assert AnimeFieldFromName("rating") == Some(Rating);
    case Studios => assert AnimeFieldFromName("studios") == Some(Studios);
  }

  /** Distinct keys of `Anime` have distinct wire names. */
  lemma AnimeFieldNameInjective(a: AnimeField, b: AnimeField)
    ensures a.Name() == b.Name() ==> a == b
  {
    AnimeFieldNameRoundTrip(a);
    AnimeFieldNameRoundTrip(b);
  }

  /** A list of distinct keys has distinct wire names. */
  lemma AnimeFieldNamesDistinct(fs: seq<AnimeField>)
    requires NoDuplicates(fs)
    ensures NoDuplicates(AnimeFieldNames(fs))
  {
    var names := AnimeFieldNames(fs);
    forall i, j | 0 <= i < j < |names| ensures names[i] != names[j] {
      AnimeFieldNameInjective(fs[i], fs[j]);
    }
  }

  /** Reads a detail wire name back: the inverse of `DetailField.Name`. */
  function DetailFieldFromName(s: string): Option<DetailField> {
    match AnimeFieldFromName(s)
    case Some(f) => Some(Base(f))
    case None =>
      if s == "pictures" then Some(Pictures)
      else if s == "background" then Some(Background)
      else if s == "related_anime" then Some(RelatedAnime)
      else if s == "related_manga" then Some(RelatedManga)
      else if s == "recommendations" then Some(Recommendations)
      else if s == "statistics" then Some(Statistics)
      else None
  }

  lemma DetailFieldNameRoundTrip(d: DetailField)
    ensures DetailFieldFromName(d.Name()) == Some(d)
  {
    if d.Base? {
      AnimeFieldNameRoundTrip(d.field);
    }
  }

  lemma DetailFieldNameInjective(a: DetailField, b: DetailField)
    ensures a.Name() == b.Name() ==> a == b
  {
    DetailFieldNameRoundTrip(a);
    DetailFieldNameRoundTrip(b);
  }

  /** `AllAnimeDetailFields` is `AllAnimeFields` followed by the six
      detail-only keys: 32 entries in all. */
  lemma AllDetailFieldsExtendAllFields()
    ensures AllAnimeDetailFields == AsDetailFields(AllAnimeFields) + DetailOnlyFields
    ensures |AllAnimeDetailFields| == 32
  {
    ExtendsPointwise(AllAnimeFields, AllAnimeDetailFields);
  }

  lemma ExtendsPointwise(fs: seq<AnimeField>, ds: seq<DetailField>)
    requires |ds| == |fs| + |DetailOnlyFields|
    requires forall i :: 0 <= i < |fs| ==> ds[i] == Base(fs[i])
    requires ds[|fs|..] == DetailOnlyFields
    ensures ds == AsDetailFields(fs) + DetailOnlyFields
  {
    var rhs := AsDetailFields(fs) + DetailOnlyFields;
    forall i | 0 <= i < |ds| ensures ds[i] == rhs[i] {
      if i >= |fs| {
        assert ds[i] == ds[|fs|..][i - |fs|];
      }
    }
  }

  /** Extending a duplicate-free list of every `Anime` key by the six
      detail-only keys gives a duplicate-free list of every `AnimeDetail` key. */
  lemma ExtendedCovers(fs: seq<AnimeField>)
    requires NoDuplicates(fs)
    requires forall f: AnimeField :: f in fs
    ensures NoDuplicates(AsDetailFields(fs) + DetailOnlyFields)
    ensures forall d: DetailField :: d in AsDetailFields(fs) + DetailOnlyFields
  {
    var ds := AsDetailFields(fs) + DetailOnlyFields;
    forall d: DetailField ensures d in ds {
      if d.Base? {
        assert d.field in fs;
        var i :| 0 <= i < |fs| && fs[i] == d.field;
        assert ds[i] == d;
      } else {
        assert d in DetailOnlyFields;
      }
    }
  }

  /** `AllAnimeDetailFields` has no duplicate and lists every key of
      `AnimeDetail`, `id` and `title` included. */
  lemma AllDetailFieldsCoverAnimeDetail()
    ensures NoDuplicates(AllAnimeDetailFields)
    ensures forall d: DetailField :: d in AllAnimeDetailFields
    ensures Base(Id) in AllAnimeDetailFields && Base(Title) in AllAnimeDetailFields
  {
    AllAnimeFieldsCoverAnime();
    AllDetailFieldsExtendAllFields();
    ExtendedCovers(AllAnimeFields);
  }

  lemma DetailFieldNamesDistinct(ds: seq<DetailField>)
    requires NoDuplicates(ds)
    ensures NoDuplicates(DetailFieldNames(ds))
  {
    var names := DetailFieldNames(ds);
    forall i, j | 0 <= i < j < |names| ensures names[i] != names[j] {
      DetailFieldNameInjective(ds[i], ds[j]);
    }
  }

  /** As strings, the two "all fields" lists hold 26 and 32 distinct names. */
  lemma AllFieldNamesDistinct()
    ensures |AnimeFieldNames(AllAnimeFields)| == 26
    ensures NoDuplicates(AnimeFieldNames(AllAnimeFields))
    ensures |DetailFieldNames(AllAnimeDetailFields)| == 32
    ensures NoDuplicates(DetailFieldNames(AllAnimeDetailFields))
  {
    AllAnimeFieldsCoverAnime();
    AllDetailFieldsCoverAnimeDetail();
    AnimeFieldNamesDistinct(AllAnimeFields);
    DetailFieldNamesDistinct(AllAnimeDetailFields);
  }

  /** `rankingType` has exactly nine values, with nine distinct names. */
  lemma RankingTypesEnumerated()
    ensures |AllRankingTypes| == 9
    ensures NoDuplicates(AllRankingTypes)
    ensures forall t: RankingType :: t in AllRankingTypes
    ensures forall i, j :: 0 <= i < j < |AllRankingTypes| ==> AllRankingTypes[i].Name() != AllRankingTypes[j].Name()
  {
    forall t: RankingType ensures t in AllRankingTypes {
      match t
      case All => case Airing => case Upcoming => case Tv => case Ova =>
      case Movie => case Special => case ByPopularity => case Favorite =>
    }
  }

  /** `quarter` has exactly four values, with four distinct names. */
  lemma QuartersEnumerated()
    ensures |AllQuarters| == 4
    ensures NoDuplicates(AllQuarters)
    ensures forall q: Quarter :: q in AllQuarters
    ensures forall i, j :: 0 <= i < j < |AllQuarters| ==> AllQuarters[i].Name() != AllQuarters[j].Name()
  {
    forall q: Quarter ensures q in AllQuarters {
      match q
      case Winter => case Spring => case Summer => case Fall =>
    }
  }
}
