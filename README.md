# ani-cli-rs core, modelled in Dafny

A model of the sequential core of ani-cli-rs, a terminal client that
searches an anime catalog over a GraphQL API, lists episodes, and resolves
stream URLs. The model has four parts.

- **Data model** (`models.dfy`). Models the translation enum (`Sub`/`Dub`),
  the records `EpisodeMeta`, `Anime`, `EpisodeStream`, `SelectedAnime` and
  `HistoryEntry`, and the error kinds. `u16` and `usize` are subset types,
  so their bounds are part of the types.
- **Response parser** (`parser.dfy`, over the JSON value of `json.dfy`).
  - Lenient: search results, episode lists and stream sources. These
    default or skip bad data and never fail.
  - Strict: the alternate stream path, which returns typed errors. Its
    quality parser returns an option that is always present: a parsed
    number or the default 720.
  - Each parse function with a loop is a method with the source's loop,
    proved equal to a specification function. Lemmas state the properties
    of that function. The episode-list, stream-source and strict-stream
    loops are proved equal to a whole-list specification. The search loop
    is proved equal to it element by element: the i-th result is the
    `Anime` read from the i-th edge. The quality parser has no loop and is
    a function.
- **API client** (`client.dfy`).
  - The three GraphQL request bodies.
  - The classification of one HTTP exchange into a typed result.
  - The bounded retry loop, proved against the number of attempts it makes
    and the sequence of attempts and sleeps it performs.
- **Episode pager** (`pager.dfy`).
  - The episodes are copied into an array and sorted in place.
  - They are labelled "Episode <number>" and shown 25 to a page, with
    "previous" and "next" affordances.
  - The loop ends when a label is chosen or the prompt fails. The
    interactive answers are given as a script.

Helpers: `wrappers.dfy` (Option and Result), `text.dfy` (prefixes, Unicode
whitespace trimming, Rust's `u16` parser), and `seqs.dfy` (`FilterMap`,
the keep-in-order shape of every push loop in the parser, and its lemmas).

Parameters stand in for the parts of the system that are not modelled:
- The network is a `Transport`: a function from the request body and the
  attempt number to what that attempt observed.
- The `f32` parser and `f32` display are function parameters into and out
  of `real`.
- The user's choices are a `seq<Answer>`.

## Model

| member | source | states |
|---|---|---|
| Models.TranslationTypeClosed | src/models.rs:8-12 | every translation is `Sub` or `Dub`; there is no third value |
| Models.Display | src/models.rs:49-55 | the display text is three letters ending in "ub" |
| Models.DisplayInjective | src/models.rs:49-55 | the two translations display differently: equal display text iff equal translation |
| Models.WireToken | src/scraper/parser.rs:47-50 | the wire token is the display text with its first letter lower-cased |
| Models.WireTokenInjective | src/scraper/client.rs:130-133 | the tokens "sub"/"dub" tell the translations apart |
| Text.StripPrefix | src/main.rs:167 | `strip_prefix` succeeds iff the text starts with the prefix, and then prefix + remainder is the text |
| Text.StripPrefixOfConcat | src/main.rs:167 | stripping `p` from `p + t` gives `t` |
| Text.SkipWhitespace | src/scraper/parser.rs:132 | the first index at or after i that is not whitespace (or the end), with only whitespace skipped |
| Text.SkipWhitespaceBack | src/scraper/parser.rs:132 | the index just after the last non-whitespace character before j (or 0), with only whitespace skipped |
| Text.TrimSlice | src/scraper/parser.rs:132 | `trim()` gives a slice of the text with only whitespace before and after it |
| Text.TrimEnds | src/scraper/parser.rs:132 | the trimmed text is empty or neither starts nor ends with whitespace |
| Text.TrimPadded | src/scraper/parser.rs:132 | trimming whitespace-padded text that has non-whitespace ends gives exactly that text |
| Text.ParseU16 | src/scraper/parser.rs:132 | a success is an optional '+' followed by non-empty ASCII digits whose value is the result; an all-digit string fails only by overflow |
| Text.ParseU16Decimal | src/scraper/parser.rs:132 | the decimal text of any u16, with or without '+', parses back to that number |
| Seqs.FilterMap | src/scraper/parser.rs:54-65 | a push loop emits no more elements than it reads |
| Seqs.FilterMapAppend | src/scraper/parser.rs:54-65 | order is preserved: filtering a concatenation concatenates the filtered parts |
| Seqs.FilterMapMember | src/scraper/parser.rs:74-86 | an element is emitted iff it is the image of some accepted input element |
| Seqs.FilterMapEmpty | src/scraper/parser.rs:122-124 | the output is empty iff every input element is rejected |
| Parser.TranslationsReported | src/scraper/parser.rs:18-25 | `Sub` present iff the sub count is a u64 > 0, `Dub` iff the dub count is; `Sub` precedes `Dub`, and there are no duplicates |
| Parser.EpisodeCountFallback | src/scraper/parser.rs:27-30 | the count is the sub count whenever that is a u64, even 0; otherwise the dub count if it is a u64; otherwise 0 |
| Parser.AnimeOfFields | src/scraper/parser.rs:15-37 | a missing or non-string `_id`/`name` yields ""; translations and count come from `availableEpisodes` |
| Parser.CollectTranslations | src/scraper/parser.rs:18-25 | the two conditional pushes build exactly the reported translations |
| Parser.ParseEdge | src/scraper/parser.rs:15-37 | one edge read field by field is the specified `Anime` |
| Parser.ParseSearchResults | src/scraper/parser.rs:9-41 | one `Anime` per edge, in edge order; empty when `edges` is not an array |
| Parser.SearchExample | src/scraper/parser.rs:9-41 | an edge with 220 sub and 200 dub episodes gives [Sub, Dub] and count 220 |
| Parser.EpisodeOfKeeps | src/scraper/parser.rs:56-63 | an entry is kept iff it is a string the number parser accepts; it becomes that number, released |
| Parser.EpisodeListReadsOneArray | src/scraper/parser.rs:47-54 | only the array of the requested translation is read |
| Parser.EpisodeListMember | src/scraper/parser.rs:44-67 | empty for a non-array; output no longer than the array; an episode appears iff it is released and is the parse of some string entry |
| Parser.CollectEpisodes | src/scraper/parser.rs:55-64 | the loop emits exactly the filtered, in-order episodes |
| Parser.ParseEpisodeList | src/scraper/parser.rs:44-67 | the result equals the episode-list specification for the selected translation |
| Parser.FourEpisodes | src/scraper/parser.rs:55-64 | "1", "2", "5.5", "movie" give episodes 1, 2 and 5.5 in that order |
| Parser.EpisodeListExample | src/scraper/parser.rs:44-67 | the example document gives three sub episodes and no dub episodes |
| Parser.StreamOfKeeps | src/scraper/parser.rs:76-85 | kept iff `sourceUrl` is a string starting with "http"; provider is `sourceName` or "Unknown"; quality 0 |
| Parser.StreamSourcesMember | src/scraper/parser.rs:70-90 | empty for a non-array; a stream is returned iff some entry yields it; every stream has an "http" URL and quality 0 |
| Parser.ParseStreamSources | src/scraper/parser.rs:70-90 | the result is the in-order filter of `sourceUrls` |
| Json.Json.At | src/scraper/parser.rs:12 | `v["k"]`: the value under k on an object with that key, null for a missing key or a non-object; AnimeOfFields and ComplexDataOutcomes state what a null field leads to |
| Json.Json.AsArray | src/scraper/parser.rs:12 | `as_array`: the elements of an array, nothing otherwise; ParseSearchResults, EpisodeListMember and StreamSourcesMember state that a non-array gives an empty result |
| Json.Json.AsStr | src/scraper/parser.rs:15 | `as_str`: the text of a string, nothing otherwise; AnimeOfFields states the "" default and StreamOfKeeps the "Unknown" one |
| Json.Json.AsU64 | src/scraper/parser.rs:20 | `as_u64`: a non-negative integer below 2^64, nothing for negatives and floats; TranslationsReported and EpisodeCountFallback state how the counts are read |
| Parser.ParseQuality | src/scraper/parser.rs:130-138 | `parse_quality`; ParseQualityDefaults states it is always `Some` (the trimmed u16 or 720) and ParseQualityOfDecimal that padded decimal text gives its number |
| Parser.ParseQualityDefaults | src/scraper/parser.rs:130-138 | always `Some`: the trimmed string parsed as u16 when that parses, otherwise 720 |
| Parser.ParseQualityOfDecimal | src/scraper/parser.rs:130-138 | a quality string holding a u16 in decimal, with any whitespace around it, gives that number |
| Parser.StrictStreamOfKeeps | src/scraper/parser.rs:108-119 | an entry with a string URL is kept iff the URL starts with "http"; its quality is what `parse_quality` gives, so `unwrap_or(0)` never applies |
| Parser.ComplexDataOutcomes | src/scraper/parser.rs:93-127 | non-array gives ParsingError; empty gives NoStreamsAvailable; an entry without a string URL gives ParsingError (iff); no "http" URL gives NoStreamsAvailable (iff); success is non-empty, in order, all "http" |
| Parser.ParseComplexData | src/scraper/parser.rs:93-127 | the result equals the strict-path specification |
| Parser.CollectStrictStreams | src/scraper/parser.rs:105-126 | the loop stops at the first entry without a string URL and otherwise keeps the in-order "http" streams |
| Client.SearchBody | src/scraper/client.rs:67-80 | exactly `query` and `variables`; allowAdult and allowUnknown false, limit 40, page 1, translationType "sub", countryOrigin "ALL", the query text unchanged |
| Client.SearchBodyInjective | src/scraper/client.rs:67-80 | distinct queries give distinct bodies |
| Client.EpisodeListBody | src/scraper/client.rs:96-101 | the only variable is `showId`, the id unchanged |
| Client.EpisodeListBodyInjective | src/scraper/client.rs:96-101 | distinct ids give distinct bodies |
| Client.EpisodeSourcesBody | src/scraper/client.rs:130-142 | exactly showId, translationType and episodeString; Sub becomes "sub" and Dub "dub"; id and episode unchanged |
| Client.EpisodeSourcesBodyInjective | src/scraper/client.rs:130-142 | the body determines show, episode and translation |
| Client.TrySendRequest | src/scraper/client.rs:172-190 | success iff a 2xx response with a JSON body; transport failure iff RequestError, non-2xx iff ApiError, undecodable 2xx body iff JsonRequestError |
| Client.AttemptsFromBounds | src/scraper/client.rs:153-166 | from attempt k the loop makes between k+1 and 3 attempts; the ones from k before the last failed; stopping before 3 means the last one succeeded |
| Client.AttemptsMadeBounds | src/scraper/client.rs:149-166 | 1 to MAX_RETRIES + 1 = 3 attempts; all but the last failed; fewer than 3 only after a success |
| Client.SendOutcome | src/scraper/client.rs:148-169 | what `send_request` returns: the last attempt's result; SendSucceedsIff and SendFailureIsLastError state that this is the first success, or else the third attempt's error |
| Client.SendSucceedsIff | src/scraper/client.rs:153-166 | the request succeeds iff one of the three attempts succeeds, and then it returns the first success |
| Client.SendFailureIsLastError | src/scraper/client.rs:157-168 | a failed request made all three attempts and returns the last one's error, never UnknownError |
| Client.AlwaysFailingTransport | src/scraper/client.rs:153-166 | an always-failing transport gets exactly three attempts |
| Client.RetryIgnoresErrorKind | src/scraper/client.rs:154-158 | all error kinds are retried alike: the attempt count depends only on which attempts failed |
| Client.ScheduleAlternates | src/scraper/client.rs:153-166 | n attempts alternate with 500 ms sleeps: 2n-1 events, attempts numbered 0 to n-1 at even positions, a sleep only between two attempts |
| Client.ScheduleSleeps | src/scraper/client.rs:160-163 | n attempts mean n-1 sleeps |
| Client.SendRequest | src/scraper/client.rs:148-169 | the loop returns the specified outcome and performs exactly the scheduled attempts and sleeps |
| Client.SearchAnime | src/scraper/client.rs:41-83 | sends the search body through the retry loop |
| Client.GetEpisodeList | src/scraper/client.rs:86-104 | sends the episode-list body through the retry loop |
| Client.FetchEpisodeSources | src/scraper/client.rs:107-145 | sends the sources body through the retry loop |
| Pager.Swap | src/main.rs:142 | exchanges two elements and leaves the rest; the contents are a permutation |
| Pager.SortByNumber | src/main.rs:141-142 | afterwards the array is sorted ascending by number and is a permutation of before |
| Pager.SortedCopy | src/main.rs:141-142 | the sorted copy is ascending by number and is a permutation of the episodes |
| Pager.NumbersPermuted | src/main.rs:141-142 | reordering the episodes reorders their numbers: equal multisets of episodes give equal multisets of numbers |
| Pager.AscendingUnique | src/main.rs:141-142 | two ascending sequences of the same numbers are equal |
| Pager.SortedNumbersUnique | src/main.rs:141-142 | any two number-sorted orders of the same episodes have the same number at every position |
| Pager.Labels | src/main.rs:144-147 | one label per sorted episode, in order, each "Episode " followed by the formatted number |
| Pager.LabelsAreLabels | src/main.rs:144-147 | every label starts with "Episode " |
| Pager.SortedLabelsUnique | src/main.rs:141-147 | any two number-sorted orders of the same episodes give the same labels, so the labels depend only on the episodes |
| Pager.AffordancesAreNotLabels | src/main.rs:155-168 | no label equals "▶ Next page" or "◀ Previous page" |
| Pager.PagesPartition | src/main.rs:137-151 | every label lies on exactly one page, and that page is valid |
| Pager.PageEnd | src/main.rs:150-151 | `(start + PAGE_SIZE).min(len)`; PagesPartition states that the pages' slices partition the labels |
| Pager.PageView | src/main.rs:150-159 | the items of one page; PageViewShape states their layout and AffordancesOffered when Next and Previous appear |
| Pager.PageViewShape | src/main.rs:150-159 | page p shows labels[p*25 .. min(p*25+25, len)], with Previous first after page 0 and Next last when labels remain |
| Pager.AffordancesOffered | src/main.rs:154-159 | Next is offered iff labels remain after the page; Previous iff the page is not the first |
| Pager.Step | src/main.rs:163-168 | the match on the selected item; OfferedStep states that an offered choice moves to a valid page or returns a label's number, and RoundNext and RoundPrevious that Next and Previous move one page |
| Pager.OfferedStep | src/main.rs:150-168 | Previous is chosen only when page > 0; each move lands on a valid page; any other choice is one of the page's labels |
| Pager.NextThenPrevious | src/main.rs:164-165 | Next, then Previous on the next page, returns to the same page |
| Pager.ChoosingALabel | src/main.rs:146-167 | choosing a page's k-th label returns the formatted number of that episode |
| Pager.PreviousOnlyAfterFirst | src/main.rs:157-165 | "previous" is offered only after the first page, so `current_page -= 1` never underflows |
| Pager.RoundMoves | src/main.rs:161-169 | a round that continues moves one page, to a valid page |
| Pager.RoundReturnsALabel | src/main.rs:161-168 | a round that returns gives the text after "Episode " of a label on the page |
| Pager.RunChoosesALabel | src/main.rs:149-170 | whatever the answers, a result is the text after "Episode " of one of the labels |
| Pager.RunContinues | src/main.rs:149-170 | after a round that goes on to page q, the rest of the answers are played from q |
| Pager.PageStartMonotone | src/main.rs:150 | later pages start further on |
| Pager.RoundNext | src/main.rs:154-156 | on a page followed by a valid page, "next" is the item after the page's 25 labels, and choosing it goes to the following page |
| Pager.RoundPrevious | src/main.rs:157-165 | after the first page, the first item is "previous", and choosing it goes to the page before |
| Pager.ForwardStep | src/main.rs:164 | the first of n Nexts moves the rest of the script to the following page |
| Pager.ForwardRun | src/main.rs:149-170 | n Nexts from page p, when page p+n exists, leave the rest of the answers to be played from page p+n |
| Pager.BackwardStep | src/main.rs:165 | the first of n Previous choices moves the rest of the script to the page before |
| Pager.BackwardRun | src/main.rs:149-170 | n Previous choices from page p >= n leave the rest of the answers to be played from page p-n |
| Pager.ThereAndBack | src/main.rs:149-170 | n Nexts followed by n Previous choices return to the starting page: the rest plays as if they had not been given |
| Pager.PageItems | src/main.rs:150-159 | the pushed and inserted items are exactly the page's layout |
| Pager.PageRound | src/main.rs:161-169 | one pass of the loop body is the specified round |
| Pager.PageLoop | src/main.rs:149-170 | the loop returns the outcome the answers lead to, staying on valid pages |
| Pager.PromptForEpisodeNumber | src/main.rs:134-171 | the sorted copy is a sorted permutation; the result is the loop's outcome on its labels, the same for every number-sorted order of the episodes, so it depends only on the episodes, the number format and the answers; it is the formatted number of one of the input episodes |
| Pager.ResultIsAnEpisode | src/main.rs:134-171 | a chosen result is the display text of the number of some input episode |

## Left out

- `ApiClient::new` (src/scraper/client.rs:19-38): reqwest header building and the 30 s timeout are library configuration. The constants are recorded, but the construction is not modelled.
- The POST itself, `response.json()` and `tokio::time::sleep`: I/O and timing. An attempt's observable outcome is the `Transport` parameter, and a sleep is an event in the trace.
- The `Display` text of an HTTP status and the text of a reqwest or serde error are strings the model does not compute.
- `src/scraper/fetcher.rs`, `src/lib.rs` and the rest of `src/main.rs` (the interactive flow, the other prompts, playback): I/O and process spawning. `fetcher.rs` duplicates the client's request code without retries.
- `f32` parsing and `f32` formatting: these are parameters over `real`. The model does not capture three things:
  - Reals have no NaN, so the panic of `partial_cmp(..).unwrap()` on NaN is not modelled, and the comparison is total.
  - Reals have no infinities. Rust parses "inf" and out-of-range text such as "1e39" to ±infinity, which sorts at the ends and prints as "Episode inf" or "Episode -inf".
  - Reals have no negative zero. "-0" parses to -0.0, which compares equal to 0.0 and prints as "Episode -0".
- The `inquire` prompt is a script of answers. An exhausted script counts as a failed prompt, as does an index outside the offered items, and both end with nothing.
- Pager.SortByNumber: proves sortedness and permutation but not stability, which Rust's `sort_by` also guarantees.
- The GraphQL documents are kept as constants with their whitespace collapsed; the catalog's reading of them is outside the model.
- JSON object key order is not modelled: objects are maps with unique keys. Numbers outside the u64 and i64 ranges, and serde's arbitrary-precision mode, are not modelled.
- `usize` is taken to be 64 bits wide, so the `as usize` cast of a `u64` count is the identity.
- `AppError` and the `Result` alias are imported from `crate::models` but are not defined in src/models.rs. Their variants here are the ones the core constructs, and a wrapped library error is kept as its description.
- No deduplication of episode numbers, since the source does none.
