# MyAnimeList client: request construction and error mapping

This project models the core of a TypeScript client for the MyAnimeList v2
REST API (the anime routes) and proves properties of that model in Dafny.
It covers four parts:

- `MalAnime` (`src/routesWrapper/anime.ts`). The client holds a client id
  and an optional access token, both of which can be replaced at any time.
  It derives the authentication header from them. For each endpoint it
  turns the caller's options into a query, sends one GET request, and
  unwraps the `{ data, paging }` envelope of the response.
- `_buildURI` (`src/util/UriBuilder.ts`). It appends the present
  parameters of a record to the query of a base URL.
- `_malFetch` (`src/util/MalFetch.ts`). It performs one request and maps a
  non-`ok` status, a network failure or a bad body onto a `MalError`.
- The field-name constants and enumerations (`src/interface/animeRoute.ts`).
  These are the keys of `Anime` and `AnimeDetail`, the "all fields" lists
  `AllAnimeFields` and `AllAnimeDetailFields`, `rankingType` and `quarter`.

Modules, one per file:

- `MalErrors` (`mal_error.dfy`): `MalError`, `Result` and `Option`.
- `Strings` (`strings.dfy`): JavaScript's comma `join` with its inverse
  `split`, and `String(n)` for an integral number with its inverse parse.
  It also holds the prefix before a separator and the rest after it, by
  which a number is read back out of a path.
- `AnimeRoute` (`anime_route.dfy`): the field and enumeration datatypes,
  their wire names and the constant lists.
- `Fetch` (`mal_fetch.dfy`): `_malFetch`.
- `UriBuilder` (`uri_builder.dfy`): `_buildURI`, a method with a loop.
- `Anime` (`anime.dfy`): the parameter records and unwrapping functions,
  plus the class `MalAnime` with its mutable fields, setters and endpoint
  methods.

How the environment is modelled:

- The network is a function parameter `server` from the request sent to
  what came back (`FetchOutcome`):
  - `Threw`: the request threw.
  - `Response(status, Some(body))`: a response whose body decoded.
  - `Response(status, None)`: a response on which `json()` threw.
- Each endpoint method returns the `Request` it sent, so its contract can
  say what is sent.
- For suggestions the returned request is an `Option`. `None` means that
  nothing was fetched.
- A URL is modelled by its part before the query plus the query as a
  sequence of decoded key/value pairs.
- JavaScript numbers are modelled as mathematical integers. The rules
  that treat 0 as falsy are kept.

The model follows the code as written, including these behaviours a caller
may not expect:

- The error messages are the code's, typos included: "invlaid" and "occured".
- `getSeasonalAnime` and `getSuggestedAnime` do not default `limit` or
  `offset` to 100 and 0. When these are absent, the builder leaves them out.
- `getAnimeDetail` wraps the field list in a one-element array before
  joining it. The text is still the comma-join of the list.
- A `q` of "" is dropped from the search query, because the builder skips
  empty strings.
- An explicit empty `fields` list is truthy. It joins to "", so the
  `fields` pair is dropped rather than defaulted.

## Model

| member | source | states |
|---|---|---|
| Strings.Join | src/routesWrapper/anime.ts:158 | the join begins with the first name, and a comma follows it when there is a second |
| Strings.SplitJoin | src/routesWrapper/anime.ts:158 | a comma-join of one or more comma-free names splits back into exactly those names, so the `fields` text loses nothing |
| Strings.JoinAppend | src/routesWrapper/anime.ts:215-217 | joining two non-empty lists gives the two joins with one comma between them |
| Strings.JoinEmpty | src/routesWrapper/anime.ts:158 | a join of non-empty names is "" exactly when the list is empty |
| Strings.NatToDecimal | src/util/UriBuilder.ts:11 | the rendering of a natural number is a non-empty run of digits without a leading zero |
| Strings.IntToDecimal | src/util/UriBuilder.ts:11 | `String(n)` is non-empty and starts with '-' exactly when `n` is negative |
| Strings.IntToDecimalParses | src/util/UriBuilder.ts:11 | `String(n)` reads back as `n` |
| Strings.IntToDecimalInjective | src/util/UriBuilder.ts:11 | distinct numbers are sent as distinct strings |
| Fetch.StatusError | src/util/MalFetch.ts:10-26 | the error for a non-`ok` status carries that status |
| Fetch.MalFetch | src/util/MalFetch.ts:3-34 | a thrown request gives ("Network error", 500); a non-`ok` status gives an error echoing it; the result is a value exactly when the status is `ok` and the body decoded, and then it is that body; every outcome is exactly one of a value and an error |
| Fetch.ErrorTable | src/util/MalFetch.ts:10-26 | the messages for 400, 401, 403 and 404, verbatim, and ("Generic error occured", s) for every other non-`ok` status s |
| Fetch.BodyIgnoredOnFailure | src/util/MalFetch.ts:9-29 | a non-`ok` result does not depend on the body |
| Fetch.NetworkErrorExactly | src/util/MalFetch.ts:7-33 | the result is ("Network error", 500) exactly when the request threw or an `ok` body failed to decode, and never for an upstream status |
| UriBuilder.Stringify | src/util/UriBuilder.ts:11 | a string is appended unchanged; a number is appended as a text that reads back as that number |
| UriBuilder.KeptIndices | src/util/UriBuilder.ts:9 | a parameter is kept exactly when its value is not `null`, `undefined` or ""; the kept positions are strictly increasing |
| UriBuilder.PairFor | src/util/UriBuilder.ts:9-12 | one parameter adds at most one pair |
| UriBuilder.Appended | src/util/UriBuilder.ts:6-13 | the loop adds at most one pair per parameter |
| UriBuilder.AppendedIsKept | src/util/UriBuilder.ts:6-13 | the appended pairs are the kept parameters, each once, in key order, with their keys and stringified values; so their count is the number of kept parameters |
| UriBuilder.AppendedConcat | src/util/UriBuilder.ts:6-13 | each parameter is handled on its own: building over a concatenation appends the pairs of both parts |
| UriBuilder.BuildUri | src/util/UriBuilder.ts:1-19 | the base URL's path and its existing pairs are kept, first and in order, followed by exactly the pairs appended for the kept parameters |
| UriBuilder.AppendNotReplace | src/util/UriBuilder.ts:12 | a key already in the base query and also given as a kept parameter occurs twice in the result |
| AnimeRoute.AnimeField.Name | src/interface/animeRoute.ts:98-125 | every `Anime` key's name is non-empty and holds no comma |
| AnimeRoute.DetailField.Name | src/interface/animeRoute.ts:200-207 | every `AnimeDetail` key's name is non-empty and holds no comma |
| AnimeRoute.RankingType.Name | src/interface/animeRoute.ts:251-260 | every ranking type has a non-empty name, so its `ranking_type` pair is never skipped |
| AnimeRoute.Quarter.Name | src/interface/animeRoute.ts:52 | every season has a non-empty name |
| AnimeRoute.AsDetailFields | src/interface/animeRoute.ts:200 | `AnimeDetail` extends `Anime`: a list of `Anime` keys is, key by key and in order, a list of `AnimeDetail` keys |
| AnimeRoute.DetailFieldNames | src/routesWrapper/anime.ts:215-217 | the names of a detail key list: one per key, in order |
| AnimeRoute.AnimeFieldNames | src/routesWrapper/anime.ts:158 | the names of an `Anime` key list: one per key, in order |
| AnimeRoute.AllAnimeFieldsCoverAnime | src/interface/animeRoute.ts:98-156 | `AllAnimeFields` has 26 entries, none twice, and every key of `Anime` is among them (so it is a permutation of the keys); `id` and `title` are present |
| AnimeRoute.AnimeFieldNameRoundTrip | src/interface/animeRoute.ts:98-125 | every key's name reads back as that key |
| AnimeRoute.AnimeFieldNameInjective | src/interface/animeRoute.ts:98-125 | distinct `Anime` keys have distinct names |
| AnimeRoute.AnimeFieldNamesDistinct | src/interface/animeRoute.ts:129-156 | a list of distinct keys has distinct names |
| AnimeRoute.DetailFieldNameRoundTrip | src/interface/animeRoute.ts:200-207 | every detail key's name reads back as that key |
| AnimeRoute.DetailFieldNameInjective | src/interface/animeRoute.ts:200-207 | distinct `AnimeDetail` keys have distinct names, including between the inherited and the six added keys |
| AnimeRoute.AllDetailFieldsExtendAllFields | src/interface/animeRoute.ts:211-244 | `AllAnimeDetailFields` is `AllAnimeFields` followed by pictures, background, related_anime, related_manga, recommendations and statistics: 32 entries |
| AnimeRoute.ExtendedCovers | src/interface/animeRoute.ts:200-209 | a duplicate-free list of all `Anime` keys, extended by the six added keys, is a duplicate-free list of all `AnimeDetail` keys |
| AnimeRoute.AllDetailFieldsCoverAnimeDetail | src/interface/animeRoute.ts:200-244 | `AllAnimeDetailFields` has no duplicate and every key of `AnimeDetail` is among them; `id` and `title` are present |
| AnimeRoute.DetailFieldNamesDistinct | src/interface/animeRoute.ts:211-244 | a list of distinct detail keys has distinct names |
| AnimeRoute.AllFieldNamesDistinct | src/interface/animeRoute.ts:129-244 | as strings, the two lists hold 26 and 32 distinct names |
| AnimeRoute.RankingTypesEnumerated | src/interface/animeRoute.ts:251-260 | `rankingType` has exactly nine values, each listed once, with nine distinct names |
| AnimeRoute.QuartersEnumerated | src/interface/animeRoute.ts:52 | `quarter` has exactly four values, each listed once, with four distinct names |
| Anime.SeasonSort.Name | src/routesWrapper/anime.ts:366 | each seasonal sort order has a non-empty name, so a given `sort` is never skipped |
| Anime.FieldListText | src/routesWrapper/anime.ts:158 | the comma-joined names of a field list are "" exactly when the list is empty |
| Anime.FieldListTextSplits | src/routesWrapper/anime.ts:158 | the text of a non-empty field list splits back into its names |
| Anime.FieldsText | src/routesWrapper/anime.ts:158 | the `fields` text is "" exactly when the caller gave an explicit empty list |
| Anime.FieldsTextSplits | src/routesWrapper/anime.ts:158 | otherwise it splits into the names of the given list, or of `AllAnimeFields` when none was given |
| Anime.DetailFieldsText | src/routesWrapper/anime.ts:215-217 | the detail field text is "" exactly when the caller gave an explicit empty list |
| Anime.DetailFieldsTextSplits | src/routesWrapper/anime.ts:215-217 | otherwise it splits into the names of the given list, or of `AllAnimeDetailFields` when none was given |
| Anime.OptionalNum | src/routesWrapper/anime.ts:374-375 | an absent number is skipped by the builder; a given one, 0 included, is passed as it is |
| Anime.SearchParams | src/routesWrapper/anime.ts:154-159 | the search record has keys `q`, `limit`, `offset` and `fields`, in this order; `q` is skipped exactly when it is ""; `limit` is the given value or 100, `offset` the given value or 0, so neither is ever skipped; `fields` is skipped exactly for an explicit empty list |
| Anime.RankingParams | src/routesWrapper/anime.ts:287-292 | the ranking record has keys `ranking_type`, `limit`, `offset` and `fields`; `ranking_type` is never skipped; `limit` is the given value unless it is absent or 0, and then 100; `offset` is the given value unless it is absent or 0, and then 0; `fields` is skipped exactly for an explicit empty list |
| Anime.SeasonalParams | src/routesWrapper/anime.ts:372-377 | the seasonal record has keys `sort`, `limit`, `offset` and `fields`; each of the first three is skipped exactly when it is absent; `fields` is skipped exactly for an explicit empty list |
| Anime.SuggestionParams | src/routesWrapper/anime.ts:420-424 | the suggestion record has keys `limit`, `offset` and `fields`; `limit` and `offset` are skipped exactly when absent; `fields` is skipped exactly for an explicit empty list |
| Anime.SeasonPath | src/routesWrapper/anime.ts:372 | the seasonal path is longer than the base URL followed by `/anime/season/` |
| Anime.SeasonPathReadsBack | src/routesWrapper/anime.ts:372 | the seasonal path is the base URL and `/anime/season/`, then a number that reads back as the year, then `/` and the season's name |
| Anime.DetailUriShape | src/routesWrapper/anime.ts:215-217 | for any field text, the detail URI is the base URL and `/anime/`, then a number that reads back as the id, then `?fields=` and that text |
| Anime.DetailUri | src/routesWrapper/anime.ts:215-217 | the detail URI is longer than the base URL followed by `/anime/` |
| Anime.DetailUriReadsBack | src/routesWrapper/anime.ts:215-217 | the detail URI is the base URL and `/anime/`, then a number that reads back as the id, then `?fields=` and the detail field text |
| Anime.Nodes | src/routesWrapper/anime.ts:164 | one node per entry, in the same order: the i-th result is the i-th entry's node |
| Anime.Rankings | src/routesWrapper/anime.ts:299-302 | one result per entry, in the same order: the i-th result pairs the i-th entry's node with its ranking |
| Anime.UnwrapList | src/routesWrapper/anime.ts:163-166 | on success, the envelope's nodes, with the same length and order; on failure, the same error; success exactly when the fetch succeeded |
| Anime.UnwrapRanking | src/routesWrapper/anime.ts:297-305 | on success, each entry's node and ranking, with the same length and order; on failure, the same error |
| Anime.FieldsPairKept | src/routesWrapper/anime.ts:158 | the builder keeps the `fields` pair unless the caller gave an empty list |
| Anime.SearchQuery | src/routesWrapper/anime.ts:154-159 | the search query is, in order: `q` unless it is ""; `limit` (100 only when absent, so 0 is sent); `offset` (0 when absent); then `fields` |
| Anime.RankingQuery | src/routesWrapper/anime.ts:287-292 | the ranking query is `ranking_type` first; then `limit`, which is 100 when absent or 0; then `offset`, which is 0 when absent or 0; then `fields` |
| Anime.ZeroLimitSearch | src/routesWrapper/anime.ts:156 | a zero search limit is sent, as "0" |
| Anime.RankingLimitPair | src/routesWrapper/anime.ts:289 | the ranking query holds exactly one `limit` pair, carrying the given limit unless it is absent or 0, and 100 then |
| Anime.ZeroLimitRanking | src/routesWrapper/anime.ts:289 | a zero ranking limit is never sent: the query carries "100" instead and no "0" |
| Anime.SeasonalQuery | src/routesWrapper/anime.ts:372-377 | the seasonal query holds `sort`, `limit` and `offset` only when given, as given, then `fields` |
| Anime.SuggestionQuery | src/routesWrapper/anime.ts:420-424 | the suggestion query holds `limit` and `offset` only when given, as given, then `fields` |
| Anime.SeasonalNoDefaults | src/routesWrapper/anime.ts:372-377 | `sort`, `limit` and `offset` each occur in the seasonal query exactly when the caller gave them |
| Anime.SuggestionsNoDefaults | src/routesWrapper/anime.ts:420-424 | `limit` and `offset` each occur in the suggestion query exactly when the caller gave them |
| Anime.DetailTextOf | src/routesWrapper/anime.ts:215-217 | a detail list that extends an `Anime` list joins to that list's text, a comma and the six added names, and splits back into both name lists |
| Anime.DetailDefaultFields | src/routesWrapper/anime.ts:215-217 | without a field list the detail URI asks for the default `Anime` fields followed by the six added detail fields |
| Anime.MalAnime.constructor | src/routesWrapper/anime.ts:17-31 | a new client holds the given client id and token, and the API base URL |
| Anime.MalAnime.GenerateHeader | src/routesWrapper/anime.ts:33-45 | exactly one header: `Authorization: Bearer <token>` when the token is set and non-empty, else `X-MAL-CLIENT-ID: <clientId>`; never both |
| Anime.MalAnime.SetAccessToken | src/routesWrapper/anime.ts:52-54 | only the token changes; the next header is the bearer header, or the client-id header for an empty token |
| Anime.MalAnime.SetClientId | src/routesWrapper/anime.ts:61-63 | only the client id changes; without a truthy token the next header carries the new id |
| Anime.MalAnime.SearchAnime | src/routesWrapper/anime.ts:153-166 | sends the current header and the search query to `/anime`; the result is the unwrapped fetch result |
| Anime.MalAnime.GetAnimeDetail | src/routesWrapper/anime.ts:214-221 | sends the current header to `/anime/<id>?fields=<detail field text>`; returns the fetch result unchanged |
| Anime.MalAnime.GetAnimeRanking | src/routesWrapper/anime.ts:286-305 | sends the current header and the ranking query to `/anime/ranking`; the result is the unwrapped ranking |
| Anime.MalAnime.GetSeasonalAnime | src/routesWrapper/anime.ts:371-382 | sends the current header and the seasonal query to `/anime/season/<year>/<season>`; the result is the unwrapped fetch result |
| Anime.MalAnime.GetSuggestedAnime | src/routesWrapper/anime.ts:417-429 | without a truthy token, sends nothing and returns ("Access token required", 401); otherwise sends the bearer header and the suggestion query to `/anime/suggestions` and returns the unwrapped fetch result |

## Left out

- The HTTP request, `res.json()`, and `async`/`Promise`. These are I/O. What they produce is an input (`FetchOutcome`) and the body is an opaque type parameter.
- Parsing and serialising the URL. This covers `new URL`, `URLSearchParams`, `urlObject.search` and `toString`, including percent-encoding (a comma in `fields` goes out as `%2C`) and URL validation. This is library behaviour. The query is a sequence of decoded pairs, and the detail URI is a plain string.
- JavaScript number semantics. This covers NaN, fractional and non-finite values, exponent notation in `String(n)`, and `Math.floor` in the ranking. Numbers are integers here, so `Math.floor` is the identity.
- A body that decodes but has no `data` array. The source then throws a `TypeError` out of the endpoint. The model assumes the body has the envelope's shape.
- The private static `fetch` of `MalAnime` (src/routesWrapper/anime.ts:65-99). It duplicates `_malFetch` and no endpoint calls it.
- The `Partial<>`/`Pick<>` overload typing and the record shapes of `Anime` and `AnimeDetail`. These exist only at compile time. Nodes and ranking entries are opaque values.
- src/index.ts, an older copy of the same client, and src/interface/animeReturnType.ts, an older copy of the type declarations. The client uses neither.
- The integration tests under src/test. They depend on live upstream data.
- Concurrency between calls. Each method reads the client's fields only before the request is sent, so a later setter cannot affect a request already built.
