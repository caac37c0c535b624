# Decathlon analytics dashboard front end — a Dafny model of its logic

The dashboard is a Next.js application that fetches pre-computed review and price statistics
from a REST back end and draws them. Its logic is modelled here:

- **Breadcrumbs** of the top navigation bar (`TopNav`). The pathname is split on `/` and empty
  pieces are dropped. Each remaining segment becomes a link to the path prefix ending with it,
  labelled with its first letter upper-cased.
- **Chart data preparation** for the five chart cards:
  - `MonthlyReviews` for `monthly-reviews-chart.tsx`;
  - `MonthlyReviewsClean` for `-clean.tsx`;
  - `MonthlyReviewsRecent` for `-new.tsx`;
  - `PriceDistribution` and `PriceBins`;
  - `WordCloud`.

  Each chart is a function `Render` from its props to a `View` datatype whose constructors are
  the branches the component renders: loading, no data, no valid data, and the chart with its
  derived series and statistics. The work done inside is the validity filters, the stable sort
  by month, the last-twelve slice, the label rewrites, the sums, minima, maxima and
  `Math.round` averages, the ±5 % trend rule, the theme palette, and the word-cloud
  configuration.
- **The chatbot page's message list** (`Chatbot.ChatPage`). It is a class whose fields are the
  page state (`messages`, `inputValue`, `isLoading`) plus the session-storage entry. Its methods
  are the page's handlers and effects. The `await` in a send splits it into `StartSend` and
  `CompleteSend`.
- **The query-key factory** (`QueryKeys`).
- **The REST and chat clients** (`ApiBase`, `TotalApi`, `HikingApi`, `ChatApi`):
  - the base URL;
  - the proxy rule;
  - the endpoint strings with their default arguments;
  - the request the chat client sends;
  - how a settled `fetch` becomes a result or a thrown error.

  The network call is not performed. Its outcome (`FetchOutcome`) is an input: a response with
  a status and a body that parses or not, or a rejection with a thrown value.

The building blocks are written out in shared modules:

- JavaScript's `split`, `join`, `filter(Boolean)`, `replace`, `trim` and `toUpperCase` (`Text`);
- `Array.prototype.filter`, `map` and the stable `sort` (`Sequences`);
- sums, `Math.max`/`Math.min`, `Math.round` of a mean and `${n}` for integers (`Numbers`);
- `JSON.stringify` of a string (`Json`).

Records arriving from the API are datatypes. A field whose type the component checks at run
time (`typeof x === 'string'`, `typeof x === 'number'`) is an `Option`: `None` means missing or
of another type. Where a filter guards against `null` items before reading their fields, a
`null` record behaves as the record with every field `None`. The word cloud's summary reads
`word.count` of every item unguarded, so there an item is an `Option` and a `null` item makes
the render throw (`WordCloud.Crashed`).

The REST clients set `baseUrl` and `useProxy` in their constructors and never change them after
that. They are therefore values (`ApiBase.Client`, `ChatApi.ChatClient`) built by a constructor
function, not classes.

Code and comment disagree in one place. The comment in `components/charts/monthly-reviews-chart.tsx`
(line 76) says `2025-04` is shown as `04.25`. The code (line 77) gives `04.2025`, and that is
what is modelled (`MonthlyTrend.MonthLabelOfYearMonth`).

## Model

| member | source | states |
|---|---|---|
| `TopNav.Segments` | components/top-nav.tsx:9 | no segment is empty and none contains `/` |
| `Text.JoinSplit` | components/top-nav.tsx:9 | joining the `split` pieces with the separator gives back the string, so the segments are exactly its `/`-separated pieces with the empty ones dropped |
| `Text.NonEmptyAppend` | components/top-nav.tsx:9 | `filter(Boolean)` distributes over concatenation, so it keeps the pieces' order |
| `TopNav.NoCrumbsIffOnlySlashes` | components/top-nav.tsx:9-19 | only the Home link is shown exactly when the pathname has no character other than `/` (so for `/` and the empty path) |
| `TopNav.Breadcrumbs` | components/top-nav.tsx:19-26 | one crumb per segment, in segment order; crumb `i` links to `Href(segments, i)` and is labelled `Label(segments[i])` |
| `TopNav.HrefStep` | components/top-nav.tsx:22 | crumb `i+1`'s href is crumb `i`'s href followed by `/` and segment `i+1` |
| `TopNav.HrefRoundTrip` | components/top-nav.tsx:9-22 | re-splitting crumb `i`'s href with the same rule gives exactly the first `i+1` segments |
| `Text.SplitJoin` | components/top-nav.tsx:22 | splitting a `/`-join of `/`-free pieces gives the pieces back |
| `TopNav.LastHrefIsPathname` | components/top-nav.tsx:9-22 | for a pathname with a leading `/`, no `//` and no trailing `/`, there is a crumb and the last one links to the pathname itself |
| `TopNav.Label` | components/top-nav.tsx:23 | same length as the segment; the first character ASCII upper-cased; every character from index 1 on unchanged |
| `Text.UpperAscii` | components/top-nav.tsx:23 | `a`–`z` map to `A`–`Z` (code point minus 32), every other character is unchanged |
| `TopNav.LabelIdempotent` | components/top-nav.tsx:23 | applying the label rule to a label changes nothing |
| `MonthlyReviews.RenderBranches` | components/charts/monthly-reviews-chart.tsx:14-71 | loading first; absent or empty data is the no-data view before any filtering; data with no valid record is the no-valid-data view |
| `Sequences.Filter` | components/charts/monthly-reviews-chart.tsx:49-54 | the result holds only elements of the input that pass, every passing element is kept, and it is no longer than the input; each chart's `validData` is this filter with its own predicate |
| `Sequences.FilterMembers` | components/charts/monthly-reviews-chart.tsx:49-54 | an element is in the filtered list exactly when it is in the input and passes |
| `Sequences.FilterAppend` | components/charts/monthly-reviews-chart.tsx:49-54 | filtering distributes over concatenation, so the relative order is kept |
| `Sequences.SortBySorted` | components/charts/monthly-reviews-chart.tsx:72 | the sort returns a permutation of its input in ascending key order |
| `Sequences.SortByStable` | components/charts/monthly-reviews-chart.tsx:72 | for each key, the elements with that key leave the sort in the order they entered it |
| `Sequences.MapSortByStable` | components/charts/monthly-reviews-chart.tsx:72 | after sorting and mapping, the mapped elements of each key are the input's elements of that key, mapped, in input order |
| `Text.OrdinalTotal` | components/charts/monthly-reviews-chart.tsx:72 | any two month texts are comparable |
| `Text.OrdinalTransitive` | components/charts/monthly-reviews-chart.tsx:72 | the comparison is transitive |
| `Text.OrdinalAntisymmetric` | components/charts/monthly-reviews-chart.tsx:72 | texts that compare both ways are equal |
| `Sequences.MapSortBy` | components/charts/monthly-reviews-chart.tsx:72-79 | mapping after sorting is a permutation of mapping the unsorted records |
| `MonthlyReviews.Render` | components/charts/monthly-reviews-chart.tsx:72-171 | a chart's period is the number of points, which is the number of valid records, and is positive |
| `MonthlyReviews.RenderChart` | components/charts/monthly-reviews-chart.tsx:72-171 | the points are a permutation of the valid records' points in ascending month order, and the points of each month are that month's records in input order (the sort is stable); each label is the rewritten month; the total is the sum of the valid counts; the average is its rounded mean over the period; the trend compares the first and last sorted counts, or is stable with 0 % for fewer than two |
| `MonthlyTrend.MonthLabelOfYearMonth` | components/charts/monthly-reviews-chart.tsx:76-77 | `YYYY-MM` (two `-`-free parts) is shown as `MM.YYYY` |
| `MonthlyTrend.MonthLabelOfPlain` | components/charts/monthly-reviews-chart.tsx:77 | a month text without `-` is shown unchanged |
| `MonthlyTrend.TrendOf` | components/charts/monthly-reviews-chart.tsx:91-97 | a finite reported percentage is never negative |
| `MonthlyTrend.TrendThreshold` | components/charts/monthly-reviews-chart.tsx:91-97 | for a positive first count: `up` exactly when `20·(last−first) > first`, `down` exactly when `20·(first−last) > first`, `stable` exactly when neither holds |
| `MonthlyTrend.TrendFromZero` | components/charts/monthly-reviews-chart.tsx:93-96 | from a first count of 0, a rise is `up` and a fall `down` with an infinite percentage; no change is `stable` with NaN |
| `MonthlyTrend.TrendEnds` | components/charts/monthly-reviews-chart.tsx:89-98 | the trend of a series of two or more counts depends only on its first and last counts |
| `Sequences.SortBySum` | components/charts/monthly-reviews-chart.tsx:159 | sorting does not change a sum over the list |
| `Sequences.SumOfMap` | components/charts/monthly-reviews-chart.tsx:159 | summing a projected field of the points is summing the record field it copies |
| `Numbers.RoundedMeanIsDivision` | components/charts/monthly-reviews-chart.tsx:165 | `Math.round(total / n)` equals the integer division `(2·total + n) div 2n` |
| `Numbers.RoundedMeanWithin` | components/charts/monthly-reviews-chart.tsx:165 | the rounded mean of values in `[lo, hi]` lies in `[lo, hi]` |
| `MonthlyReviews.AverageWithinCounts` | components/charts/monthly-reviews-chart.tsx:165 | the monthly average lies between the smallest and the largest monthly count |
| `MonthlyReviewsClean.RenderBranches` | components/charts/monthly-reviews-chart-clean.tsx:14-47 | loading first, then absent or empty data; every other input is charted, with no validity filter |
| `MonthlyReviewsClean.Render` | components/charts/monthly-reviews-chart-clean.tsx:49-160 | a chart has one point per row and its period is the number of rows |
| `MonthlyReviewsClean.RenderChart` | components/charts/monthly-reviews-chart-clean.tsx:49-160 | the points are a permutation of all rows' points (every field copied) in ascending `year_month` order, and the points of each month are that month's rows in input order (the sort is stable); each label is the rewritten month; the trend compares the first and last sorted `total_reviews`; the total is the sum of `total_reviews` |
| `MonthlyReviewsRecent.Recent` | components/charts/monthly-reviews-chart-new.tsx:49 | the last `min(12, n)` rows, as the suffix of the data in its original order |
| `MonthlyReviewsRecent.FormatMonthMissing` | components/charts/monthly-reviews-chart-new.tsx:53-55 | a missing, non-string or empty month is shown as `N/A` |
| `MonthlyReviewsRecent.FormatMonthUnchanged` | components/charts/monthly-reviews-chart-new.tsx:57-60 | a non-empty text without exactly one `-` (so not two parts) is returned unchanged |
| `Text.SplitLength` | components/charts/monthly-reviews-chart-new.tsx:57-58 | `split` yields one more piece than there are separators |
| `MonthlyReviewsRecent.FormatMonthOfYearMonth` | components/charts/monthly-reviews-chart-new.tsx:62-63 | `YYYY-MM` is shown as the year without its first two characters, `.`, the month |
| `MonthlyReviewsRecent.RenderBranches` | components/charts/monthly-reviews-chart-new.tsx:14-47 | loading first, then absent or empty data; every other input is charted |
| `MonthlyReviewsRecent.Render` | components/charts/monthly-reviews-chart-new.tsx:49-71 | a chart has one point per recent row |
| `MonthlyReviewsRecent.RenderChart` | components/charts/monthly-reviews-chart-new.tsx:49-83 | point `i` comes from recent row `i` with `reviews` and `fullMonth` copied; the maximum is one of the counts and bounds them all; the total is their sum; the average is its rounded mean and lies between the smallest count and the maximum |
| `Numbers.Max` | components/charts/monthly-reviews-chart-new.tsx:81 | `Math.max` of a non-empty list is one of its elements and bounds all of them |
| `PriceDistribution.RenderBranches` | components/charts/price-distribution-chart.tsx:15-73 | loading first; absent data or an absent or empty histogram is the no-data view whatever the prices are; a histogram without valid bins is the no-valid-data view |
| `PriceDistribution.RenderChart` | components/charts/price-distribution-chart.tsx:74-92 | one bar per valid bin, in order, with `priceRange` and `count` copied and the shown label; the statistics come from the prices alone, so the product count is the number of prices (0 when absent) |
| `PriceDistribution.ShownLabel` | components/charts/price-distribution-chart.tsx:78 | the shown label starts with `₩` |
| `PriceDistribution.ShownLabelCommas` | components/charts/price-distribution-chart.tsx:78 | only the first comma is removed: a label with `k ≥ 1` commas keeps `k−1`, one without commas is shown unchanged after `₩`, and exactly one character is dropped when there is a comma |
| `Text.RemoveFirstCount` | components/charts/price-distribution-chart.tsx:78 | removing the first comma removes exactly one comma when there is one, and leaves a comma-free text unchanged |
| `PriceDistribution.PriceStats` | components/charts/price-distribution-chart.tsx:89-92 | the product count is the number of prices (0 when absent); with no prices all four statistics are 0; otherwise the minimum and maximum are prices that bound every price, and the average is the rounded mean |
| `Numbers.Min` | components/charts/price-distribution-chart.tsx:92 | `Math.min` of a non-empty list is one of its elements and bounds all of them from below |
| `PriceDistribution.AverageWithinRange` | components/charts/price-distribution-chart.tsx:90-92 | the average price lies between the minimum and the maximum price |
| `PriceBins.RenderBranches` | components/charts/price-bins-chart.tsx:14-74 | loading first; absent or empty data is the no-data view; data without valid bins is the no-valid-data view |
| `PriceBins.RenderChart` | components/charts/price-bins-chart.tsx:75-139 | one entry per valid bin, in order, with rating, reviews and products copied; the price range is the label with every comma removed, so it holds no comma; the shown label is `₩` and the label with its commas kept; the total is the sum of `n_products` over the valid bins |
| `PriceBins.PriceRangeSpec` | components/charts/price-bins-chart.tsx:76 | the price range holds no comma, every other character keeps its count, and removing commas again changes nothing |
| `Text.RemoveAllKeeps` | components/charts/price-bins-chart.tsx:76 | removing every comma keeps the count of every other character |
| `WordCloud.GetThemeColors` | components/charts/wordcloud-chart.tsx:29-73 | the palette has 10 colours; it is the dark palette exactly when the resolved theme is `dark`, the light one otherwise |
| `WordCloud.EffectDraws` | components/charts/wordcloud-chart.tsx:108-129 | the effect hands a configuration to the library exactly when the script is loaded, the library is present and some word is valid |
| `WordCloud.EffectConfig` | components/charts/wordcloud-chart.tsx:132-159 | the configured words are the valid words index by index with text and count copied; `maxItems` is `min(validWords, 100)`, between 1 and 100; the minimum length is 2; the palette and border colour are the theme's |
| `WordCloud.MaxItems` | components/charts/wordcloud-chart.tsx:144 | `Math.min(n, 100)`: at most 100, at most `n`, and one of the two |
| `WordCloud.RenderBranches` | components/charts/wordcloud-chart.tsx:229-267 | loading while loading or while the script is not loaded; then absent or empty words is the no-data view |
| `WordCloud.MentionsClosedForm` | components/charts/wordcloud-chart.tsx:270 | the left-to-right `reduce` throws exactly when some item is `null`; otherwise it is NaN exactly when some count is neither a number, `null` nor a boolean, and else the sum of the counts with `null` as 0 and booleans as 0 or 1 |
| `WordCloud.SummaryCountsAllWords` | components/charts/wordcloud-chart.tsx:269-272 | the summary runs over the unfiltered words: the render throws exactly when some item is `null`; otherwise the card shows their number, the sum of all counts (NaN exactly when some count is neither a number, `null` nor a boolean), the first word's text or `-`, and a rounded average that lies between the smallest and the largest count |
| `Chatbot.ChatPage.constructor` | app/chatbot/page.tsx:34-36 | the first render: no messages, an empty input, not loading |
| `Chatbot.Loaded` | app/chatbot/page.tsx:50-67 | a saved list is restored; an absent or unreadable entry gives the greeting |
| `Chatbot.ChatPage.LoadMessages` | app/chatbot/page.tsx:50-67 | sets the list to what the stored entry gives, and changes nothing else |
| `Chatbot.Persisted` | app/chatbot/page.tsx:73-81 | the store is written with the list exactly when the list is non-empty |
| `Chatbot.ChatPage.SaveMessages` | app/chatbot/page.tsx:73-81 | the stored entry becomes what the save rule gives, and nothing else changes |
| `Chatbot.ReloadRestoresSaved` | app/chatbot/page.tsx:50-81 | loading after saving a non-empty list gives that list back |
| `Chatbot.Accepts` | app/chatbot/page.tsx:84 | a send is accepted exactly when the input has a non-whitespace character and no send is in progress |
| `Text.TrimEmpty` | app/chatbot/page.tsx:84 | the trimmed input is empty exactly when every character is JavaScript whitespace |
| `Text.TrimSlice` | app/chatbot/page.tsx:90 | the trimmed text is a slice of the input that neither starts nor ends with whitespace |
| `Text.TrimIdempotent` | app/chatbot/page.tsx:90 | trimming twice is trimming once |
| `Chatbot.ChatPage.StartSend` | app/chatbot/page.tsx:83-95 | a rejected send changes nothing; an accepted one appends exactly the user message with the trimmed input, clears the input and sets loading |
| `Chatbot.ChatPage.CompleteSend` | app/chatbot/page.tsx:97-121 | appends exactly one assistant message and clears loading |
| `Chatbot.MessagesOfASend` | app/chatbot/page.tsx:86-118 | the user message has the user role and the trimmed, non-empty input; on success the reply carries the answer, recommendations and session id; on failure it carries the fixed apology and no recommendations |
| `Chatbot.SendIdsCollide` | app/chatbot/page.tsx:87-111 | the two messages of a send share an id exactly when the clock read at completion is one millisecond before the one read at the start |
| `Chatbot.ChatPage.SendMessage` | app/chatbot/page.tsx:83-122 | either nothing changes, or the list grows by exactly two (the user message, then the reply), the earlier messages are kept, and loading ends false |
| `Chatbot.ChatPage.HandleKeyPress` | app/chatbot/page.tsx:124-129 | Enter without Shift sends exactly when the send is accepted, appending the user message and then the reply, clearing the input and ending loading; a rejected Enter and every other key change nothing |
| `Chatbot.ChatPage.ClearHistory` | app/chatbot/page.tsx:138-141 | the list becomes exactly the one-element greeting and the stored entry is removed |
| `Chatbot.ChatPage.SetInput` | app/chatbot/page.tsx:35 | typing sets the input and nothing else |
| `QueryKeys.Key` | lib/query/keys.ts:2-44 | every key starts with its domain's name |
| `QueryKeys.KeyShape` | lib/query/keys.ts:2-44 | `all` keys have length 1, `monthlyTopOne` and `monthlyReviews` length 2, every other key length 3 with the parameter object last; every key of a domain extends that domain's `all` key |
| `QueryKeys.DomainsApart` | lib/query/keys.ts:4-32 | keys from different domains never collide |
| `QueryKeys.SecondElementNamesFactory` | lib/query/keys.ts:5-42 | within a domain, different factory functions give different second elements |
| `QueryKeys.KeyInjective` | lib/query/keys.ts:2-44 | equal keys come from the same factory with equal arguments |
| `QueryKeys.CategoriesDifferOnlyInDomain` | lib/query/keys.ts:17-43 | the running and hiking factories give the same key apart from the domain element |
| `ApiBase.BaseUrl` | lib/api/base.ts:3 | the environment value when it is set and non-empty, the fixed origin otherwise |
| `ApiBase.NewClient` | lib/api/base.ts:9-13 | the base URL is kept; proxying holds exactly when it is requested and the code runs in a browser on `localhost` |
| `ApiBase.ApiUrlShape` | lib/api/base.ts:21-23 | the URL is the proxy prefix or the base URL followed by the endpoint, and the endpoint can be recovered from it |
| `ApiBase.FetchApiOutcomes` | lib/api/base.ts:15-46 | an ok status with a parsed body succeeds with that body, and only then; any other status gives `API 요청 실패: <status>`; an abort gives `요청 시간 초과: <endpoint>`; any other thrown value comes back unchanged |
| `ApiBase.StatusErrorInjective` | lib/api/base.ts:35 | different statuses give different error messages |
| `Numbers.IntToStringInjective` | lib/api/base.ts:35 | `${n}` is injective on integers |
| `Numbers.NatToStringRoundTrip` | lib/api/total.ts:17 | the decimal text of a natural number reads back as that number |
| `ApiBase.TwoParamsInjective` | lib/api/total.ts:17 | `p${a}&q${b}` determines `a` and `b` |
| `TotalApi.DefaultEndpoints` | lib/api/total.ts:16-29 | the default arguments give `limit=5&min_reviews=1` and `bin_size=20000` |
| `TotalApi.EndpointShape` | lib/api/total.ts:16-33 | every path starts with `/total/` and has no `?`; the endpoint is the path, followed by `?` and the query exactly for the parameterised calls |
| `TotalApi.PathOfEndpoint` | lib/api/total.ts:16-33 | the part before the first `?` is the call's path |
| `TotalApi.PathsDistinct` | lib/api/total.ts:16-33 | the five paths are pairwise distinct |
| `TotalApi.EndpointInjective` | lib/api/total.ts:16-33 | the endpoint determines the method and its arguments |
| `HikingApi.DefaultRankingEndpoints` | lib/api/hiking.ts:16-21 | the defaults give `limit=5&min_reviews=1` for the two ranking calls |
| `HikingApi.RankingEndpointInjective` | lib/api/hiking.ts:16-21 | the ranking endpoints determine their `limit` and `min_reviews` |
| `HikingApi.DefaultSubcategoryEndpoint` | lib/api/hiking.ts:24-25 | the encoded subcategory comes first, then `limit=5` and `min_reviews=1` |
| `HikingApi.SubcategoryEndpointInjective` | lib/api/hiking.ts:24-25 | when the encoding holds no `&` and keeps the two subcategories apart, the endpoint determines the subcategory, the limit and the minimum |
| `HikingApi.DefaultDirectEndpoints` | lib/api/hiking.ts:28-62 | the defaults give `bin_size=20000` and `top_n=100` |
| `HikingApi.PriceDistributionUrl` | lib/api/hiking.ts:30-32 | the price-distribution URL is the `fetchApi` URL of its endpoint |
| `HikingApi.WordCloudUrl` | lib/api/hiking.ts:60-62 | the word-cloud URL is the `fetchApi` URL of its endpoint |
| `HikingApi.SameUrlRule` | lib/api/hiking.ts:16-62 | every call, direct or through `fetchApi`, asks for the proxy prefix or the base URL followed by its endpoint |
| `HikingApi.DirectOutcomes` | lib/api/hiking.ts:37-55 | an ok parsed body succeeds and only then; another status gives `HTTP error! status: <n>`; an abort gives the call's own 30-second message; other thrown values come back unchanged, and so does a body that fails to parse |
| `ChatApi.ChatUrl` | lib/api/chat.ts:44-46 | the URL ends with `/chatbot/chat` |
| `ChatApi.DefaultChatUrl` | lib/api/chat.ts:37-46 | the defaults are the fixed origin and proxying requested, so the proxy route is used exactly in a browser on `localhost` |
| `ChatApi.RequestShape` | lib/api/chat.ts:44-55 | a POST with a JSON content type whose body reads back as the message; the proxy route only when proxying in a browser on `localhost`, otherwise the base URL and `/chatbot/chat` |
| `ChatApi.MessageBodyRoundTrip` | lib/api/chat.ts:54 | the JSON body `{"message":…}` carries the message unchanged, whatever characters it holds |
| `Json.UnescapeEscape` | lib/api/chat.ts:54 | reading back a JSON-escaped string gives the string |
| `Json.EscapeHasNoQuote` | lib/api/chat.ts:54 | every `"` in an escaped string is preceded by a backslash, so the string literal cannot end early |
| `ChatApi.SendOutcomes` | lib/api/chat.ts:57-61 | an ok status with a parsed body succeeds with it, and only then; another status gives `Chat API 요청 실패: <status>`; a rejection passes through unchanged |

## Left out

- JSX, CSS classes, Recharts and ZingChart drawing, and the ZingChart script loading, DOM polling and render/destroy calls. These are UI and foreign-library calls. The library's presence and the `scriptLoaded` flag are inputs of `WordCloud.Effect`.
- `fetch`, `AbortController`, the 30-second `setTimeout`, cookies and `credentials`. These are network I/O. A call's settlement is the input `FetchOutcome`, and a timeout is a rejection whose error is named `AbortError`.
- `console.log`/`console.error` output, because it is I/O.
- `app/api/chat/route.ts` and the `/api/proxy/...` route. These are pass-through proxies, i.e. I/O plumbing, and the second is not part of this model.
- `lib/query/total.ts`, `running.ts`, `hiking.ts` and `index.ts`. They are thin wrappers over TanStack `useQuery`, whose caching and retry live in the library.
- The pages `app/page.tsx`, `app/running/page.tsx` and `app/hiking/page.tsx` only combine query states into views. The presentational files are left out too: sidebar, layout, product-item, top-products-section, subcategory-section, error-display, loading-spinner and `lib/api/index.ts`.
- Floating point. The `avg_rating` averages with `toFixed` (clean chart line 154, price-bins lines 145 and 151) and every `toLocaleString` formatting are not modelled. `avg_rating` and `avg_total_reviews` are carried as exact reals.
- `MonthlyTrend.TrendOf`: the percentage is computed in exact real arithmetic rather than IEEE doubles, so its reported magnitude may differ in the last bits. The direction is exact for integer counts.
- `localeCompare` is read as ordinal (code-point) order. `toUpperCase` is read as ASCII upper-casing, so a non-ASCII first letter is left as it is.
- `encodeURIComponent` is the parameter `encode` of `HikingApi.Endpoint`, an uninterpreted function.
- `HikingApi.SubcategoryEndpointInjective`: it assumes `encode` puts no `&` in its output and keeps the two subcategories apart. `encodeURIComponent` does both, but no encoder is modelled.
- Numbers are integers. A non-integer or NaN query parameter, price, count or review count is not modelled. `Numbers.IntToString` is `${n}` for integers only.
- The JSON serialisation in `JSON.stringify`: lone UTF-16 surrogates are outside the model, because Dafny's `char` is a Unicode scalar value.
- `Date.now()` is an argument of the chat page's methods. Message timestamps (`new Date()`) and their formatting are dropped.
- `sessionStorage` is the field `storage` holding the `Stored` datatype. A value of `""` is `Absent`, and a value `JSON.parse` rejects (or any error while reading) is `Unreadable`. Restoring each message's `timestamp` is dropped along with the timestamps.
- `Chatbot.ChatPage.SaveMessages`: a `setItem` that throws (a full store) is not modelled. The model always writes.
- `Chatbot.ChatPage.ClearHistory` models the click handler only. In React the save effect then runs again because `messages` changed, and it writes the greeting back into storage. In the model that is a following call of `SaveMessages`.
- Overlapping sends, i.e. a second send while the first one's `await` is pending, are excluded by the `isLoading` guard as in the source. React's batching of state updates is not modelled.
- `MonthlyReviewsClean`: a `year_month` that is not a string makes `localeCompare` throw. Rows are modelled with a string `year_month`.
- `WordCloud.SummaryCountsAllWords`: a first word whose `text` is a truthy non-string (a number, say) would be displayed by the code. The model counts such a text as missing and shows `-`. A string or object count turns the JavaScript sum into string concatenation; the model gives a NaN total and average (`None`) for it, as for `undefined`.
- `Math.max(...)` and `Math.min(...)` over very long lists can throw a `RangeError` in JavaScript. The model has no such limit.
- The `Content-Type` header, `credentials: 'include'` and the method are recorded as data in `ChatApi.Request`. Their effect on the network is not modelled.
