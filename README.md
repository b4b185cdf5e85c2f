# Townhall Insights dashboard — a Dafny model of its client core

The Townhall Insights dashboard is a Next.js front end over an Azure Function App
that analyses town-hall meeting transcripts. This project models its client-side
core and proves properties of that model:

- **The REST client** (`lib/api.ts`), in `api.dfy`:
  - the records the backend returns;
  - the `ApiClient` class with its base URL, its access token and the function key;
  - how `makeRequest` builds the target URL (the access key as a `code` parameter, unless the base URL is a localhost address);
  - how it builds the headers;
  - how a failed request becomes an error message;
  - the four endpoint builders, with the `URLSearchParams` serializer they use.
- **The utterance search page** (`app/utterances/page.tsx`), in `utterances.dfy`:
  - the query parameters built from the page number and the filters;
  - the paging controller behind the infinite scroll (`resetAndFetch`, `loadMore`, and the reset a filter change triggers);
  - the sorted lists of distinct speakers, departments and regions.
- **The speaker directory** (`app/speakers/page.tsx`), in `speakers.dfy`:
  - the search and category filter;
  - the distinct departments and regions, in order of first occurrence;
  - the empty fallback after a failed fetch.
- **The dashboard home page** (`app/page.tsx`), in `dashboard.dfy`:
  - the three requests made together;
  - the all-or-nothing fallback when any of them fails;
  - the headline figures: topics, speakers, meetings, known regions and departments, total utterances;
  - the five most active speakers, moderators excluded.
- **The chat page** (`app/chat/page.tsx`), in `chat.dfy`:
  - the send guard (blank input, or a reply still pending);
  - the append-only conversation log;
  - the context taken from the last message;
  - the apology text shown when a query fails.

`collections.dfy` holds the sequence idioms the pages rely on:

- `[...new Set(xs)]`;
- `new Set(xs).size`;
- `filter`;
- `Array.from(new Set(xs)).sort()`, with the default string order.

`text.dfy` holds the JavaScript string operations:

- `includes`;
- `toLowerCase`;
- `trim`;
- integer `toString`;
- `JSON.stringify` on strings.

The network is never modelled. Each request's answer from the server is a parameter of type `Reply`, which is either a status with its text and payload, or a transport error. `RequestOutcome` turns that reply into what `makeRequest` resolves to or rejects with.

Every asynchronous handler that changes state before its `await` is split there into two methods:

- `Begin…`: the state change before the request goes out;
- `Finish…`: the state change once the outcome arrives.

The handler's own name (`ResetAndFetch`, `LoadMore`, `HandleSendMessage`) runs the two back to back. `FetchSpeakers` and `FetchDashboard` change nothing before their `await` and are single methods.

## Model

| member | source | states |
|---|---|---|
| Collections.Distinct | app/speakers/page.tsx:70-71 | `[...new Set(xs)]` has no repeated value and holds exactly the values of xs |
| Collections.DistinctKeepsFirstOccurrenceOrder | app/speakers/page.tsx:70-71 | the distinct values come in the order in which they first occur |
| Collections.CountDistinct | app/page.tsx:71-73 | `new Set(xs).size` is the number of distinct values of xs, never more than its length |
| Collections.Filter | app/speakers/page.tsx:61-68 | `filter` keeps, in order, exactly the elements passing the test, each as often as in the input |
| Collections.FilterCongruent | app/speakers/page.tsx:61-68 | filtering by two tests that agree on every value gives the same list |
| Collections.LessIrreflexive | app/utterances/page.tsx:167 | the default sort order never puts a string before itself |
| Collections.LessTransitive | app/utterances/page.tsx:167 | the default sort order is transitive |
| Collections.LessTotal | app/utterances/page.tsx:167 | of two different strings exactly one sorts first |
| Collections.SortedDistinct | app/utterances/page.tsx:166-168 | `Array.from(new Set(xs)).sort()` is strictly ascending and holds exactly the values of xs |
| Collections.StrictlySortedUnique | app/utterances/page.tsx:166-168 | a strictly ascending list is fixed by its values, so the sorted distinct list is the only one |
| Text.IncludesIffOccurs | app/speakers/page.tsx:62-63 | `s.includes(sub)` holds exactly when sub occurs at some position of s |
| Text.IncludesChar | lib/api.ts:94 | a one-character search finds exactly the characters the string contains |
| Text.Lower | app/speakers/page.tsx:62-63 | `toLowerCase` keeps the length, turns each ASCII capital into its small letter and changes nothing else |
| Text.SameIgnoringCaseLower | app/speakers/page.tsx:62-63 | strings that differ only in the case of ASCII letters lowercase alike |
| Text.LowerIdempotent | app/speakers/page.tsx:62-63 | lowercasing twice is lowercasing once |
| Text.TrimEmptyIffBlank | app/chat/page.tsx:28 | `s.trim()` is empty exactly when s is nothing but white space |
| Text.NatToString | app/utterances/page.tsx:73-74 | `n.toString()` is a non-empty run of digits with no leading zero |
| Text.ParseNatToString | app/utterances/page.tsx:74 | the decimal text of n reads back as n |
| Text.JsonQuote | lib/api.ts:135 | `JSON.stringify` of a string is wrapped in double quotes |
| Text.JsonEscapeRoundTrip | lib/api.ts:135 | reading back an escaped string gives the original string |
| Text.BodyLengthOfEscape | lib/api.ts:135 | the body `JSON.stringify` writes for a string ends exactly at its closing quote, whatever follows |
| Api.Assign | app/utterances/page.tsx:77-88 | `params[k] = v` makes k map to v, keeps every other key, appends a new key at the end and keeps keys unique |
| Api.FormEncode | lib/api.ts:141-142 | an encoded name or value holds only letters, digits, `*-._`, `+` and `%` |
| Api.FormEncodeKeepsSafeText | lib/api.ts:141-142 | ASCII letters, digits and `*-._` are written unchanged |
| Api.Serialize | lib/api.ts:141-142 | the query string is empty exactly when there are no parameters |
| Api.SerializeShape | lib/api.ts:141-142 | the query string has one `=` per parameter, one `&` between consecutive parameters, and no `?` or `#` |
| Api.ResourceEndpoint | lib/api.ts:140-161 | the endpoint is the bare path without parameters, and the path, `?` and the query string otherwise |
| Api.RequestOutcome | lib/api.ts:111-127 | a request succeeds exactly on a 2xx status, with the payload; every failure message starts with "API request failed: " |
| Api.HttpErrorMessage | lib/api.ts:118-126 | an HTTP failure's message is the prefix twice, the status, a space and the status text, so it contains the status followed by its text |
| Api.EndpointQueryMark | lib/api.ts:94 | a resource endpoint contains `?` exactly when it has parameters |
| Api.ResourceUrl | lib/api.ts:92-96 | the access key is joined with `&` after a query string, and with `?` when there are no parameters |
| Api.RemoteUrlHasOneQueryMark | lib/api.ts:92-96 | a remote request URL built from `?`-free parts contains exactly one `?` |
| Api.KeyedResourceUrlMarks | lib/api.ts:92-96 | the count of `?` in a keyed resource URL is one |
| Api.ApiClient.constructor | lib/api.ts:82-84 | a new client keeps the base URL it is given and has no access token |
| Api.ApiClient.SetAccessToken | lib/api.ts:86-88 | the token is replaced and the base URL stays |
| Api.ApiClient.RequestUrl | lib/api.ts:92-96 | the URL follows the URL rule and begins with base URL plus endpoint |
| Api.ApiClient.RequestHeaders | lib/api.ts:98-109 | the headers are `Content-Type: application/json` unless the caller overrides it, then every caller header, then a bearer `Authorization` that wins whenever a token is set |
| Api.ApiClient.MakeRequest | lib/api.ts:90-128 | the request has the URL and header rules, the caller's verb and body and mode `cors`; the outcome is RequestOutcome of the reply |
| Api.ApiClient.PostChatQuery | lib/api.ts:132-137 | a POST to `/chat/query` whose body is the JSON of the query |
| Api.ChatQueryJsonRoundTrip | lib/api.ts:135 | the JSON body of a chat query reads back as that query: its question, and a context exactly when the query has one |
| Api.ApiClient.GetTrends | lib/api.ts:140-145 | a GET of `/insights/trends` with its parameters as query string |
| Api.ApiClient.GetSpeakers | lib/api.ts:148-153 | a GET of `/insights/speakers` with its parameters as query string |
| Api.ApiClient.GetUtterances | lib/api.ts:156-161 | a GET of `/insights/utterances` with its parameters as query string |
| UtterancesPage.SentimentBuckets | app/utterances/page.tsx:81-90 | "positive" sets only a minimum of 0.3, "negative" only a maximum of -0.3, "neutral" both bounds, and anything else neither |
| UtterancesPage.UtteranceParams | app/utterances/page.tsx:71-93 | the parameters have unique names: top=20 and skip=(page-1)·20, each filter only when it is set, the sentiment bounds of the bucket, and nothing else |
| UtterancesPage.PageParams | app/utterances/page.tsx:72-75 | only `top` and `skip` are set |
| UtterancesPage.AddSearchParams | app/utterances/page.tsx:77-78 | `search` is set when the term is non-empty, and `speaker` when it is not "all" |
| UtterancesPage.AddPlaceParams | app/utterances/page.tsx:79-80 | `department` and `region` are set when they are not "all" |
| UtterancesPage.AddSentimentParams | app/utterances/page.tsx:81-90 | the bucket's bounds are set and every other parameter stays |
| UtterancesPage.ParamsForDetermined | app/utterances/page.tsx:71-93 | the page number and the filters alone decide every parameter |
| UtterancesPage.SkipCountsEarlierPages | app/utterances/page.tsx:74 | `skip` reads back as the number of items on the earlier pages |
| UtterancesPage.UtteranceFeed.constructor | app/utterances/page.tsx:41-56 | the page starts empty on page 1, promising more, with every filter at its default |
| UtterancesPage.UtteranceFeed.BeginReset | app/utterances/page.tsx:95-100 | before the request the list is emptied and rewound to page 1 with more promised; the parameters are those of page 1 |
| UtterancesPage.UtteranceFeed.FinishReset | app/utterances/page.tsx:101-110 | a reply replaces items and total and decides hasMore by a full page; a failure leaves all three; the page number is left as it is either way |
| UtterancesPage.UtteranceFeed.ResetAndFetch | app/utterances/page.tsx:95-111 | on success the list is the reply's first page; on failure it stays empty on page 1 with more promised |
| UtterancesPage.UtteranceFeed.BeginLoadMore | app/utterances/page.tsx:113-121 | it goes ahead exactly when no load-more is pending and more is promised, and otherwise changes nothing |
| UtterancesPage.UtteranceFeed.FinishLoadMore | app/utterances/page.tsx:121-131 | a reply is appended and the requested page becomes current, even when a reset in between put it several pages ahead; a failure changes neither |
| UtterancesPage.UtteranceFeed.LoadMore | app/utterances/page.tsx:113-132 | the next page's request follows the parameter and URL rules; its items are appended on success and the page number goes up by one; a failure changes neither; the items stay the received batches in order |
| UtterancesPage.UtteranceFeed.ChangeFilters | app/utterances/page.tsx:134-137 | the same filters change no field at all; new filters reset to page 1 and refetch, after which a reply sets items, total and hasMore, and a failure leaves the list empty with more promised |
| UtterancesPage.UtteranceFeed.LoadMoreAcrossFilterChange | app/utterances/page.tsx:113-137 | a `loadMore` of page k + 1 requested under the old filters and answered after a filter change is appended after the new first page and makes k + 1 the page number, so the next `loadMore` asks the new filters for page k + 2 |
| UtterancesPage.UtteranceFeed.StalePageBeforeResetReply | app/utterances/page.tsx:95-137 | when that stale page 2 lands before the reset's reply, the page number stays 2: the reply alone is on screen and the next `loadMore` asks the new filters for page 3; if the reset fails, the stale page stays on screen |
| UtterancesPage.UniqueSpeakers | app/utterances/page.tsx:166-168 | the speakers of the loaded items, each once, in ascending order |
| UtterancesPage.UniqueDepartments | app/utterances/page.tsx:170-172 | the departments of the loaded items, each once, in ascending order |
| UtterancesPage.UniqueRegions | app/utterances/page.tsx:174-176 | the regions of the loaded items, each once, in ascending order |
| SpeakersPage.FilteredSpeakers | app/speakers/page.tsx:61-68 | exactly the speakers that match the search and both filters, in order; nothing without data |
| SpeakersPage.SearchIgnoresCase | app/speakers/page.tsx:62-63 | terms, names and departments that differ only in ASCII letter case give the same match |
| SpeakersPage.FilterIgnoresSearchCase | app/speakers/page.tsx:61-68 | two search terms that differ only in letter case list the same speakers |
| SpeakersPage.NoFiltersListsEverySpeaker | app/speakers/page.tsx:61-68 | an empty search with both filters at "all" lists every speaker |
| SpeakersPage.Departments | app/speakers/page.tsx:70 | each department of the results once |
| SpeakersPage.Regions | app/speakers/page.tsx:71 | each region of the results once |
| SpeakersPage.DepartmentsInFirstOccurrenceOrder | app/speakers/page.tsx:70 | departments are listed in the order they first occur |
| SpeakersPage.RegionsInFirstOccurrenceOrder | app/speakers/page.tsx:71 | regions are listed in the order they first occur |
| SpeakersPage.SpeakersAfterFetch | app/speakers/page.tsx:34-38 | the page holds the reply, or an empty result list after a failure |
| SpeakersPage.FetchSpeakers | app/speakers/page.tsx:30-45 | one GET of the speakers endpoint without parameters; the data is the reply or the empty fallback |
| SpeakersPage.FailedFetchShowsNothing | app/speakers/page.tsx:36-38 | after a failure no speaker, department or region is offered, whatever the filters |
| Dashboard.AfterFetch | app/page.tsx:41-55 | all three datasets when every request succeeds; the three empty datasets as soon as one fails |
| Dashboard.FetchDashboard | app/page.tsx:31-62 | three body-less GETs (utterances with `top=10000`, speakers, trends) and the state they leave |
| Dashboard.AllUtterancesEndpoint | app/page.tsx:36 | the utterance request's endpoint is `/insights/utterances?top=10000` |
| Dashboard.TotalTopics | app/page.tsx:64 | the number of trends, 0 without data |
| Dashboard.ActiveSpeakers | app/page.tsx:65 | the number of speaker results, 0 without data |
| Dashboard.TotalUtterances | app/page.tsx:106 | the reported total, 0 when it is missing |
| Dashboard.MeetingsHeld | app/page.tsx:71-75 | the number of distinct meeting ids, at most the number of items and at least 1 when there are items |
| Dashboard.KnownValuesOfField | app/page.tsx:77-79 | the known values read off the items are the set of known values of that field |
| Dashboard.UniqueRegions | app/page.tsx:77-79 | the number of distinct regions other than empty and "Unknown" |
| Dashboard.UniqueDepartments | app/page.tsx:107-109 | the number of distinct departments other than empty and "Unknown" |
| Dashboard.ActiveSpeakerList | app/page.tsx:274 | at most five speakers, none a moderator, the first of the non-moderators in their order, and all of them when there are fewer than five |
| Dashboard.FailedFetchZeroesFigures | app/page.tsx:45-55 | after any failure every figure is 0 and no speaker is listed |
| ChatPage.AssistantText | app/chat/page.tsx:47-61 | the answer on success; otherwise the apology prefix, the error message and the suffix |
| ChatPage.FailedQueryApologizes | app/chat/page.tsx:54-61 | a failed query's reply begins with the apology and then the client's "API request failed: " |
| ChatPage.AnsweredQueryShowsAnswer | app/chat/page.tsx:45-53 | a 2xx reply shows the answer as it came |
| ChatPage.ContextOf | app/chat/page.tsx:40-43 | no context for an empty log, otherwise the last message's content |
| ChatPage.ContextIsLastReply | app/chat/page.tsx:40-43 | once the log holds whole exchanges, the context is the assistant's last reply |
| ChatPage.ChatSession.constructor | app/chat/page.tsx:20-22 | an empty log, an empty input, not loading |
| ChatPage.ChatSession.SetInput | app/chat/page.tsx:210 | typing replaces the input |
| ChatPage.ChatSession.BeginSend | app/chat/page.tsx:26-43 | nothing happens exactly when the input is blank or a reply is pending; otherwise the question is appended, the input cleared, loading set, and the query carries the previous last message as context |
| ChatPage.ChatSession.FinishSend | app/chat/page.tsx:47-64 | the reply text is appended and loading ends; the log keeps alternating question and reply |
| ChatPage.ChatSession.HandleSendMessage | app/chat/page.tsx:26-65 | a send POSTs the query and appends the question and then the answer or apology; a refused send changes nothing |

## Behaviour as written

The intended design of the paging controller and of error handling differs from the code in a few places. The model follows the code in each of them:

- `loadMore` checks only `loadingMore` and `hasMore` (app/utterances/page.tsx:115). A `loadMore` can therefore start while a reset is in flight.
- A failed `loadMore` leaves `hasMore` as it was. The next trigger retries the same page; nothing blocks further appends.
- No response is tagged with the filters it was requested under. A late page k + 1 from an earlier filter set is appended after a reset's first page and sets `currentPage` to k + 1 with the number it captured (app/utterances/page.tsx:119, 124-125). The next `loadMore` then asks the new filters for page k + 2, so their pages 2 to k + 1 are never shown. `UtteranceFeed.LoadMoreAcrossFilterChange` exhibits this for every k.
- A reset sets `currentPage` to 1 only before its request (app/utterances/page.tsx:98), and its reply does not set it again (lines 102-105). A stale page 2 that lands while the reset is in flight moves `currentPage` to 2 (lines 124-125). The reset's reply then replaces the items but leaves the page at 2, so the next `loadMore` asks the new filters for page 3 (`skip=40`), and their page 2 is never shown. If the reset fails instead, the old filters' page stays on screen. `UtteranceFeed.StalePageBeforeResetReply` exhibits both.
- There is one error type, an `Error` whose message is text. No separate network or HTTP error exists. An HTTP failure's message carries the "API request failed: " prefix twice, because the error thrown inside the `try` is caught and wrapped again (lib/api.ts:118-126).
- The utterance page only logs a failed fetch; it shows no failure message. The speakers and dashboard pages substitute empty data.

## Left out

- Network and `fetch` are not modelled. So are CORS, JSON decoding of a response body, and `console` logging. A server's answer is a parameter of each request method.
- `return response.json()` is not awaited inside `makeRequest`'s `try`. A body that is not JSON therefore rejects without the "API request failed: " prefix. JSON decoding is outside the model, so this path is not represented.
- The environment values `NEXT_PUBLIC_API_URL` and `NEXT_PUBLIC_FUNCTION_KEY` are modelled as strings given to the constructor. Undefined values are not modelled: an undefined function key would appear as the text "undefined" in the URL, and an undefined base URL makes the `includes` call on it (lib/api.ts:93) throw before the `try`, so the request fails without the error prefix.
- Header names are compared case-sensitively. The browser's case-insensitive header handling is not modelled.
- Api.FormEncode: JavaScript strings are UTF-16. A lone surrogate, which `URLSearchParams` writes as U+FFFD, cannot occur in a Dafny string and is not modelled.
- `URLSearchParams` built from a record with integer-like keys would order those keys first. The pages use no such keys, so insertion order is modelled.
- Text.NatToString: follows `toString` for integers below 10^21. Exponent notation for larger numbers is not modelled.
- Text.Lower: case folding covers ASCII letters only. Other scripts are compared as they are.
- Collections.Less: the default `sort` compares UTF-16 code units, while this order compares code points. The two differ only between characters on both sides of the surrogate range.
- Floating-point fields are not part of the records. These include sentiment scores, averages, novelty and confidence. The page features built on them are left out: sentiment colours and labels, average sentiment, and `toFixed`.
- The dashboard's quarterly meeting count depends on the clock (`new Date()`) and is left out.
- Messages carry no time stamp, because it comes from the clock. Locale time formatting is left out for the same reason.
- React scheduling is not modelled. The 300 ms search debounce is reduced to the `search` filter value. The infinite-scroll observer that triggers `loadMore` is not modelled; the call it makes is.
- Promise.all runs its three requests concurrently. They are modelled in sequence. The page sets its state once all three succeed, or as soon as one fails; later replies are ignored. So only the combined outcome matters, not the order of arrival.
- Interleavings are not modelled in general. Each handler runs from start to settlement, except in `LoadMoreAcrossFilterChange` and `StalePageBeforeResetReply`, which show one stale page arriving after, or during, a reset. Not shown: a reset reply arriving after a newer reset, two `loadMore` replies crossing, and a double submit through a stale `isLoading` closure. For this reason `FinishLoadMore` expects a page number ahead of the current one, which holds for the one `loadMore` that can be in flight, since a reset only lowers the page; `FinishReset` accepts any page number.
- Presentational components, the navigation bar and the trends page are not part of this model.
