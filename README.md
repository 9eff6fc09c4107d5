# linux-do-stream v4.5 — a Dafny model of the feed, session and summary rules

linux-do-stream is a browser side panel for the linux.do forum. It fetches
the topic list, filters and sorts it, marks topics read, shows a toolbar
badge and keyword notifications, caches the login status, and asks an AI
service to summarise a thread. The repository holds two generations of the
panel. `sidepanel.js` is the single-file v4.1 panel. `src/sidepanel/main.js`
with `src/sidepanel/ui-render.js` is the modular v4.5 panel. `background.js`
and `src/utils/api.js` are two copies of the network gateway and of the
login-status cache.

This project models those decision rules and proves what they promise:

- `Text`, `Sequences`, `Wrappers`: strings as `seq<char>` (ASCII lowering,
  JavaScript `trim`, `split`, `includes`, decimal printing), order-keeping
  filters, a stable descending sort, counting, and `Option`.
- `Topics`: the topic record, the category table, the latest poster, the
  users map.
- `Formatters`: `formatTime`, `isTopicRecent`, `getTrustBadge`, `formatNumber`.
- `Storage`: `chrome.storage.local` as a map of JSON values; the default merge
  of `getConfig`/`getAllData`; the read-set round trip; the store as a class.
- `FeedRules`: the conjunctive filters, the sort, the read and "new" decisions,
  the badge count, notifications, and both panels' `renderTopics`.
- `Gateway`: URL building, endpoint choice, the bounded 403 retry, the
  topic-page shapes, and the session-reply classification. The network is an
  input function `net(k)`, the reply to the `k`-th request.
- `SessionCache`: `checkUserStatus`/`clearUserCache` as a pure state machine
  over the two storage keys and as a class holding the store.
- `ActionBadge`: the badge text of `updateBadge`.
- `Summary`, `AiPanel`: post selection by depth, the prompt, the content-type
  guess, `summarizeWithAI`'s validation and provider dispatch, and the AI
  summary dialog's state.
- `JsCollections`: the order-keeping `Set` of read ids, and a string array as
  a heap object that two configuration objects can share.
- `LegacyPanel`, `MainPanel`: the two panels as classes. Their methods update
  the list, the read set, the configuration, the blocked-category array, the
  category selection and the refresh timer.

Integers are unbounded and timestamps are integer milliseconds. Replies from
the network and the AI service are parameters. HTML-to-text extraction is the
parameter `plain`.

Several behaviours of the code are stated as lemmas or as scenario methods:

- In the modular panel, `'hide'` makes the render throw. `FeedRules.ModularApplyFilters`
  and `MainPanel.Panel.LoadTopics` state this.
- The modular feed is always sorted by last post time (`FeedRules.ModularSortsByLatest`).
- A trailing comma in the blacklist hides every topic (`FeedRules.TrailingCommaDropsAll`).
- A slug blocked while the configuration still shares the default array
  survives a reset (`LegacyPanel.BlockSurvivesReset`).
- The modular reset keeps the form's values (`MainPanel.ResetKeepsFormBlacklist`).
- A stored selection that repeats a slug can be toggled to empty
  (`MainPanel.RepeatedStoredSlugCanEmpty`).

## Model

| member | source | states |
|---|---|---|
| Text.Lower | sidepanel.js:341-342 | `toLowerCase` keeps the length and lowers each character in place (ASCII letters only) |
| Text.Trim | sidepanel.js:341 | `trim` is the slice of its input left after cutting white space only, from both ends, and leaves no blank at either end |
| Text.TrimStart | sidepanel.js:341 | the result is a suffix of the input, everything cut off is blank, and the result does not start with a blank |
| Text.TrimEnd | sidepanel.js:341 | the result is a prefix of the input, everything cut off is blank, and the result does not end with a blank |
| Text.Split | sidepanel.js:341 | `split(',')` gives at least one part and no part contains the separator |
| Text.JoinSplit | sidepanel.js:341 | joining the parts of `split` with the separator gives back the input |
| Text.SplitTrailingSep | sidepanel.js:341 | a string ending in the separator splits into the parts of the rest plus one empty part |
| Text.SplitNoSep | sidepanel.js:341 | a string without the separator splits into itself alone |
| Text.NatToString | background.js:73 | the decimal text of `count.toString()` is non-empty, all digits, and has no leading zero unless the number is 0 |
| Text.NatToStringValue | background.js:73 | reading the decimal text back gives the number |
| Text.IntToString | background.js:100 | the text of an integer status is its decimal text, with a minus sign when negative |
| Text.JoinWithContains | src/utils/ai.js:58-62 | every part joined with `'\n\n'` occurs in the joined text |
| Sequences.Filter | sidepanel.js:328-356 | `Array.filter` keeps only elements that pass and keeps every element that passes |
| Sequences.FilterIsSubsequence | sidepanel.js:328-356 | a filtered list is a subsequence of its input (same order, nothing added) |
| Sequences.FilterIdempotent | sidepanel.js:328-356 | filtering twice by the same predicate is filtering once |
| Sequences.FilterConj | sidepanel.js:332-353 | two filters in sequence are one filter by the conjunction |
| Sequences.FilterCommute | sidepanel.js:332-353 | the order in which two filters run does not matter |
| Sequences.CountWhere | sidepanel.js:308 | `filter(...).length` is at most the list's length |
| Sequences.CountIsFilterLength | src/sidepanel/ui-render.js:73-78 | a count is the length of the filtered list, as `filter(...).length` is |
| Sequences.CountWhereExtremes | sidepanel.js:308 | the count is the length exactly when every element passes, and 0 exactly when none does |
| Sequences.SortDesc | sidepanel.js:529-532 | the sort is a permutation of its input and non-increasing by the key |
| Sequences.SortDescStable | sidepanel.js:529-532 | the sort is stable: the elements of each key keep their input order |
| Sequences.SortDescSorted | sidepanel.js:529-532 | the sort leaves an already sorted list unchanged |
| Sequences.SortDescIdempotent | sidepanel.js:529-532 | sorting a sorted list again changes nothing |
| Sequences.InsertSorted | sidepanel.js:529-532 | inserting into a non-increasing list keeps it non-increasing |
| Sequences.Take | src/utils/ai.js:37 | `slice(0, n)` is a prefix of length `min(n, length)` |
| Topics.FindById | sidepanel.js:334 | the category lookup finds a category exactly when one has that id, and the one found has it |
| Topics.AllSlugs | src/sidepanel/main.js:136 | the default selection lists every category's slug, in table order |
| Topics.DisplayCategory | src/sidepanel/ui-render.js:109 | an unknown `category_id` shows the `其他` category; a known one shows the table entry with that id |
| Topics.ShownTags | src/sidepanel/ui-render.js:113-114 | at most the first two tags are shown, and exactly two when there are at least two |
| Topics.LatestPoster | src/sidepanel/ui-render.js:125 | the latest poster is missing only for an empty list; it is the first `latest` poster when one exists, and otherwise the last poster |
| Topics.FirstLatest | src/sidepanel/ui-render.js:125 | `find` returns a `latest` poster exactly when one exists, and no poster before it is marked `latest` |
| Topics.TrustOf | src/sidepanel/ui-render.js:121-133 | a present, non-zero latest-poster id found in the users map gives that entry's level and flag, and only then can the result differ from `(0, false)` |
| Topics.UsersMap | src/sidepanel/main.js:241 | the map from the users array has every user's id as a key, and each entry is the user with that id |
| Formatters.FormatTime | src/utils/formatters.js:8-15 | the age buckets are under 60 s (future times included), under 1 h (whole minutes), under 1 day (whole hours), and month/day otherwise |
| Formatters.TimeText | src/utils/formatters.js:11-13 | `刚刚` exactly for "just now"; the minutes and hours texts are a decimal number that reads back as the count, followed by `m` or `h` |
| Formatters.TrustBadge | src/utils/formatters.js:52-88 | the admin badge is shown whenever the user is an admin; levels 1 to 4 give badge `l<level>`; any other level gives none |
| Formatters.TopicBadge | src/sidepanel/ui-render.js:121-135 | a card's badge is the trust badge of its latest poster, and none when that poster is unknown |
| Formatters.FormatNumber | src/utils/formatters.js:22-24 | values below 1000 are returned unchanged, and only those |
| Storage.DefaultConfig | src/utils/storage.js:4-25 | the defaults have no `sortFilter` key |
| Storage.Spread | src/utils/storage.js:33 | `{...base, ...over}` has the union of the keys; values come from `over` when it has the key and from `base` otherwise |
| Storage.GetConfig | src/utils/storage.js:31-34 | with nothing stored the result is the defaults; it always has every default key |
| Storage.GetConfigMerge | src/utils/storage.js:33 | stored keys override the defaults, absent keys keep the default value, and the keys are the union |
| Storage.GetConfigHasNoSortFilter | src/utils/storage.js:33 | the merged configuration has no `sortFilter` unless the stored object has one |
| Storage.Dedup | src/utils/storage.js:50 | `new Set(array)` has the same members as the array and no duplicates |
| Storage.DedupNoDup | src/utils/storage.js:50 | `new Set` of a duplicate-free array keeps its order |
| Storage.EncodeIds | src/utils/storage.js:58 | `Array.from(set)` stores each id as a number, in order |
| Storage.GetReadTopics | src/utils/storage.js:48-51 | an absent key gives the empty set; a stored array gives a duplicate-free set of the same members |
| Storage.GetUserSettings | src/utils/storage.js:65-68 | an absent or falsy value gives `null`; a truthy one is returned as stored |
| Storage.GetAllData | src/utils/storage.js:82-90 | with nothing stored, the result holds the defaults, an empty set and `null` |
| Storage.GetAllDataAgrees | src/utils/storage.js:82-90 | `getAllData` returns exactly what the three separate getters return |
| Storage.LocalStore.SaveConfig | src/utils/storage.js:40-42 | writes only the `config` key, and `getConfig` then returns the defaults spread with that object |
| Storage.LocalStore.SaveReadTopics | src/utils/storage.js:57-59 | writes only the `readTopicIds` key, and `getReadTopics` then returns the saved ids |
| Storage.LocalStore.SaveUserSettings | src/utils/storage.js:74-76 | writes only the `userSettings` key |
| Storage.ReadTopicsRoundTrip | src/utils/storage.js:50-58 | reading the read set after saving it gives back the saved ids, in order |
| FeedRules.DecodeConfig | src/utils/storage.js:4-25 | the typed configuration reads `showBadge` by truthiness and `readStatusAction` as the stored string, and has no sort key when none is stored |
| FeedRules.DefaultFeedConfigValues | src/utils/storage.js:4-25 | the defaults as the feed sees them: a 30 s interval, no blacklist, no quality filter, fade, badge on, sync on, depth `smart` |
| FeedRules.NothingStoredMeansDefaults | src/utils/storage.js:33 | with no stored configuration the panel works with the defaults and no sort key |
| FeedRules.BlacklistEntries | sidepanel.js:341 | one entry per comma-separated part, each trimmed and lowercased, and empty entries are kept |
| FeedRules.BaseFiltersIsConjunction | src/sidepanel/ui-render.js:177-197 | the category, keyword and quality filters keep exactly the topics passing every enabled rule, in input order |
| FeedRules.LegacyFiltersIsConjunction | sidepanel.js:328-356 | `applyFilters` is one filter by the conjunction of the enabled rules, hide-read included |
| FeedRules.LegacyFiltersSelect | sidepanel.js:328-356 | the visible list is a subsequence of the input, and a topic is in it exactly when it is in the input and passes every enabled rule |
| FeedRules.LegacyFiltersIdempotent | sidepanel.js:328-356 | applying the filters to their own output changes nothing |
| FeedRules.QualityFilterBound | sidepanel.js:346-348 | with the quality filter on, every visible topic has more than ten posts |
| FeedRules.UnknownCategoryKept | sidepanel.js:333-336 | a topic whose category is not in the table is never dropped for its category |
| FeedRules.HideUsesLocalSetOnly | sidepanel.js:351-353 | under `'hide'` a topic in the local read set is never visible, whatever the site watermark says |
| FeedRules.TrailingCommaDropsAll | sidepanel.js:340-343 | a blacklist ending in a comma has an empty entry, which every title contains, so no topic is visible |
| FeedRules.ModularApplyFilters | src/sidepanel/ui-render.js:177-205 | under `'hide'`, a non-empty list after the base filters raises the unbound-`readTopicIds` error; otherwise the result is the base filters' list |
| FeedRules.ModularAgreesWithLegacy | src/sidepanel/ui-render.js:177-205 | whenever the modular filters succeed, they give the single-file panel's result |
| FeedRules.SortBy | sidepanel.js:526-534 | `applySorting` returns a permutation of its input, non-increasing by the chosen key; an unknown key leaves the order unchanged |
| FeedRules.SortByIdempotent | sidepanel.js:526-534 | sorting a sorted list again changes nothing |
| FeedRules.ModularSortName | src/sidepanel/ui-render.js:212 | the modular sort key is `sortFilter`, or `latest` when it is absent or empty |
| FeedRules.ModularSortsByLatest | src/sidepanel/ui-render.js:210-220 | with no `sortFilter` key (as for every stored configuration) the feed is non-increasing by last post time |
| FeedRules.TopicCard | src/sidepanel/ui-render.js:99-135 | read means local id or (sync and a non-zero watermark at or past the highest post); faded means read under `'fade'`; the new dot means recent and not read; plus category, tags and badge |
| FeedRules.LocalReadHidesNewDot | sidepanel.js:361-362 | a topic in the local read set is read and never shows the new dot |
| FeedRules.SyncOffIgnoresWatermark | sidepanel.js:361-362 | with sync off, a topic is read exactly when its id is in the local set |
| FeedRules.BadgeCount | src/sidepanel/ui-render.js:73-78 | the badge is 0 when off; otherwise it is the length of the filtered topics not in the local set, so 0 means all are read and the full length means none is |
| FeedRules.BadgeIgnoresSync | src/sidepanel/ui-render.js:73-78 | the sync setting (and so the site watermark) does not change the badge |
| FeedRules.BadgeIndependentOfOrder | src/sidepanel/ui-render.js:69-74 | counting over the sorted list would give the same badge as counting over the filtered one |
| FeedRules.CountWherePermutation | src/sidepanel/ui-render.js:69-74 | a count is the same over any permutation of a list |
| FeedRules.LegacyRender | sidepanel.js:303-312 | `renderTopics` shows a sorted permutation of the filtered topics, and its badge is the filtered list's unread count, at most the number shown |
| FeedRules.HideBadgeCountsAll | sidepanel.js:303-312 | under `'hide'` with the badge on, the badge equals the number of visible topics |
| FeedRules.ModularRender | src/sidepanel/ui-render.js:68-94 | the modular render produces nothing (no badge, no list) exactly when its filters raise; otherwise it shows a sorted permutation of the base filters' list with its badge |
| FeedRules.NotifyKeywords | sidepanel.js:292 | the notification keywords are exactly the non-empty trimmed, lowercased comma-separated entries |
| FeedRules.Notifications | sidepanel.js:290-301 | nothing is sent when `notifyKeywords` is empty, and at most one message per topic |
| FeedRules.NotificationsInOrder | sidepanel.js:290-301 | one message per qualifying topic, in list order: the count of qualifying topics, and the i-th message is the i-th qualifying topic's title |
| FeedRules.NotificationsExact | sidepanel.js:290-301 | every title sent belongs to a recent, locally unread topic containing a keyword, and every such topic's title is sent |
| FeedRules.BlankKeywordsNotifyNothing | sidepanel.js:292-297 | a keyword list of blank entries only sends nothing |
| Gateway.Url | background.js:82 | `BASE_URL` is prepended unless the endpoint starts with `http` |
| Gateway.JsonUrl | background.js:83 | `.json` is appended unless the URL already contains it |
| Gateway.RetryTargetsSameUrl | background.js:98 | the built URL passed back in on a retry normalises to the same request URL |
| Gateway.TopicsEndpoint | src/utils/api.js:109-122 | `top` gives `/top.json`; `latest` is chosen exactly when it is not `top` and not `categories` with a known sub-id |
| Gateway.CategoryEndpoint | src/utils/api.js:117 | a category endpoint starts with `/c/` and is neither fixed endpoint |
| Gateway.LegacyEndpoint | sidepanel.js:257-265 | the single-file panel has no endpoint (it throws) exactly for `categories` with an unknown sub-id |
| Gateway.EndpointsAgree | sidepanel.js:257-265 | where the single-file panel picks an endpoint it is the one `fetchTopics` picks; where it throws, `fetchTopics` would use `/latest.json` |
| Gateway.TopicsUrl | src/utils/api.js:22-23 | every topic endpoint is requested at `https://linux.do` followed by the endpoint itself |
| Gateway.Failure | background.js:120-123 | a failure carries empty topics and users and the error message |
| Gateway.ExtractTopics | background.js:104-112 | the topic list is the first of `topic_list.topics`, `topics` and a root array that is present, else empty |
| Gateway.FirstPresentOfThree | src/utils/api.js:63-76 | the three-way priority chain written out |
| Gateway.Outcome | src/utils/api.js:41-99 | a request succeeds exactly on an OK status with a parsable, non-null body, and then carries the extracted topics; every failure has empty topics and users |
| Gateway.OutcomeVariantsAgree | src/utils/api.js:46-50 | the two copies agree on every reply except a 429, where only the message differs |
| Gateway.FetchWithRetry | background.js:81-124 | at most `retries + 1` requests, all to the same URL; every request but the last got a 403; the last is not a 403 unless the retries ran out; the result is the last reply's outcome |
| Gateway.AtMostThreeRequests | background.js:81 | with the default count there are at most three requests, and a failure has empty topics and users |
| Gateway.NoRetryOn429 | src/utils/api.js:41-49 | a 429 is never retried and gives an error result (`Too Many Requests (429)` in `api.js`, `HTTP 429` in the worker) |
| Gateway.PersistentForbidden | background.js:97-100 | a server that always answers 403 gets exactly `retries + 1` requests and the fetch fails |
| Gateway.ClassifySession | background.js:232-270 | logged in exactly on an OK, parsed reply with a non-null `current_user` (then that user, with no error); rate limited exactly on 429; no error exactly on an OK, parsed reply |
| Gateway.ClassifyVariantsAgree | src/utils/api.js:195-212 | the two copies classify alike except for the message of an unparsable body |
| SessionCache.Cooldown | src/utils/api.js:8 | the cooldown is positive and shorter than the time-to-live (60 s in the worker, 5 s in `api.js`) |
| SessionCache.CeilSeconds | background.js:150 | `Math.ceil(d/1000)` is at least 1 and is the least whole number of seconds covering `d` |
| SessionCache.CheckStatus | background.js:142-192 | the check goes to the network exactly when there is no cooldown and no cache younger than 5 minutes; otherwise the store is untouched; a live result is cached with `timestamp = now` |
| SessionCache.CooldownShortCircuits | background.js:148-153 | inside the cooldown the answer is rate limited with `retryAfter` the seconds left rounded up (at least 1), with no request and no store change |
| SessionCache.FreshCacheReturnedVerbatim | background.js:156-168 | a cache younger than the time-to-live is returned as stored, logged in or not |
| SessionCache.LiveCheckOverwrites | background.js:174-188 | a live check overwrites the cache key, sets `rateLimitUntil = now + cooldown` exactly on a 429, and changes no other key |
| SessionCache.QuietAfterLiveCheck | src/utils/api.js:140-150 | within the time-to-live after a live check, the next check does not go to the network, and stays rate limited if the live one was |
| SessionCache.ClearedCheckGoesLive | src/utils/api.js:218-220 | after both keys are removed, the next check goes to the network |
| SessionCache.CooldownLengthsDiffer | src/utils/api.js:8 | 5 s after a 429 the worker is still cooling down but `api.js` is not, yet `api.js` still answers from its cache |
| SessionCache.StatusCache.CheckUserStatus | src/utils/api.js:128-166 | the stateful check returns and stores what the pure check does, and counts one request exactly when it goes live |
| SessionCache.StatusCache.ClearUserCache | background.js:274-277 | removes both keys and nothing else |
| ActionBadge.BadgeText | background.js:71-78 | the text is empty exactly for counts of 0 or less, `99+` exactly above 99, and at most three characters |
| ActionBadge.BadgeShowsCount | background.js:73 | a count from 1 to 99 shows as its own decimal digits |
| ActionBadge.ShortDecimal | background.js:73 | a number below 100 prints in one or two characters, without `+` |
| Summary.FilterPostsByDepth | src/utils/ai.js:22-42 | `all` and unknown depths return the input; every result is a sub-multiset of the input; `hot` gives posts with at least 2 likes, non-increasing by likes, exactly min(10, number of such posts) of them |
| Summary.SummaryDepthSelects | src/utils/ai.js:27-30 | `summary` gives exactly the posts numbered 1, in input order |
| Summary.HotDepthSelects | src/utils/ai.js:32-38 | `hot` keeps only input posts with at least 2 likes (missing counts as 0): ten when there are more, all of them otherwise |
| Summary.HotDepthKeepsMostLiked | src/utils/ai.js:34-37 | a hot post left out has no more likes than any hot post kept |
| Summary.HotTiesKeepInputOrder | src/utils/ai.js:32-38 | among equally liked hot posts, the kept ones are the first ones in input order |
| Summary.Instruction | src/utils/ai.js:52-56 | each depth gets its own instruction, and an unknown depth gets the `all` one |
| Summary.PostLine | src/utils/ai.js:58-61 | each line starts with `[n楼 @user] (likes赞) `, and the rest is a prefix of the plain text, of length min(500, its length): the whole text when it has at most 500 characters |
| Summary.PostLines | src/utils/ai.js:58-62 | one line per post, in input order |
| Summary.PromptMentionsEverything | src/utils/ai.js:64-73 | the prompt contains the title, the depth instruction and every post's line |
| Summary.DetectContentType | src/utils/ai.js:82-102 | the recommendation is one of the four depths, and is `smart` exactly for the general type |
| Summary.DetectIsFirstMatch | src/utils/ai.js:83-101 | the first keyword group found in the lowercased title wins, in the order question, discussion, tutorial, review |
| Summary.StripTrailingSlash | src/utils/ai.js:134 | at most one trailing `/` is removed, and it always is when present |
| Summary.ProviderOf | src/utils/ai.js:137-138 | MiniMax exactly for a URL containing `minimax`; Anthropic exactly for one containing `anthropic` but not `minimax`; the OpenAI-compatible format for all others |
| Summary.AnthropicPathIsRedundant | src/utils/ai.js:137-138 | the second substring of each test adds nothing to the first |
| Summary.PrepareSummary | src/utils/ai.js:112-186 | a missing URL or key is rejected first; a ready request carries the depth with `smart` resolved to `hot`, the posts that depth selects, the prompt built from them, and the provider's endpoint under the stripped URL |
| Summary.ReadersReadTheirShape | src/utils/ai.js:219-227 | each provider's reader returns the text its own reply shape carries, and an empty summary for the other shape |
| Summary.ChatReadersAgree | src/utils/ai.js:219-227 | MiniMax and the OpenAI-compatible reader agree whenever `choices[0].message.content` is non-empty; otherwise only MiniMax falls back to `choices[0].content` |
| Summary.ReadersIgnoreOtherShape | src/utils/ai.js:219-227 | the Anthropic reader ignores `choices`, and the chat readers ignore `content` |
| Summary.SummarizeWithAI | src/utils/ai.js:112-240 | a rejected request fails with the validation error; an OK reply gives the provider's reading, the selected post count and the resolved depth; a non-OK status fails with the scraped message or `API 错误: <status>`; a thrown error fails with its message or `网络请求失败` |
| Summary.RejectionIgnoresReply | src/utils/ai.js:116-128 | a request that fails validation fails whatever the service would answer (no network call) |
| Summary.ValidationOrder | src/utils/ai.js:116-128 | the URL and key are checked before the posts; with both present, the empty-selection error comes exactly when the resolved depth selects nothing |
| Summary.SmartMeansHot | src/utils/ai.js:121 | `smart` behaves exactly as `hot` |
| Summary.MiniMaxWinsOverAnthropic | src/utils/ai.js:142-158 | a URL containing `minimax` goes to `/v1/text/chatcompletion_v2` even if it also contains `anthropic` |
| AiPanel.OrElse | src/sidepanel/ai-panel.js:304 | `x or fallback` is non-empty whenever the fallback is |
| AiPanel.ActualDepth | src/sidepanel/ai-panel.js:325 | the resolved depth is never `smart` |
| AiPanel.SummarizeOutcome | src/sidepanel/ai-panel.js:284-379 | every error shown is non-empty; a prompt is built only after the posts, URL and key checks pass; a summary is shown only for a successful service reply |
| AiPanel.PostsCheckedFirst | src/sidepanel/ai-panel.js:302-310 | a failed or empty posts reply is reported before anything else, and no prompt is built |
| AiPanel.PanelAgreesWithPrepare | src/sidepanel/ai-panel.js:320-339 | after good posts the panel checks as `summarizeWithAI` does and builds the same prompt, titled by the fetched topic's title when there is one |
| AiPanel.SummaryCountsPosts | src/sidepanel/ai-panel.js:367 | without a post count from the service, the summary is based on the selected posts, at least one and at most all |
| AiPanel.DefaultDepth | src/sidepanel/ai-panel.js:398-402 | the default depth is the configured one, unless that is `smart` or absent, in which case it is the recommendation |
| AiPanel.SelectedRadio | src/sidepanel/ai-panel.js:405-411 | the checked radio is always one of the three, the default depth's when it has one, `hot` otherwise |
| AiPanel.SmartOpensOnRecommendation | src/sidepanel/ai-panel.js:399-411 | with `smart` configured, a general title opens on `hot` and any other on its recommendation |
| AiPanel.SummaryDialog.HandleSummarize | src/sidepanel/ai-panel.js:284-379 | returns the pure outcome; only a shown summary updates `currentSummary` and `currentTopic` |
| AiPanel.SummaryDialog.Open | src/sidepanel/ai-panel.js:384-421 | records the topic, keeps the summary, and checks the resolved radio |
| AiPanel.SummaryDialog.Close | src/sidepanel/ai-panel.js:426-433 | clears the summary and the topic |
| JsCollections.SetAdd | sidepanel.js:446 | `set.add(id)` has exactly the old members plus the id, keeps the old order as a prefix, and adds no duplicate |
| JsCollections.Without | sidepanel.js:498 | `set.delete(id)` has exactly the old members other than the id |
| JsCollections.WithoutNoDup | sidepanel.js:498 | deleting keeps the set duplicate-free and shrinks it by one exactly when the id was present |
| JsCollections.WithoutAbsent | sidepanel.js:498 | deleting an absent id changes nothing |
| JsCollections.AddThenDelete | sidepanel.js:446-498 | marking a new id read and then unread restores the set, order included |
| JsCollections.FilterAppend | sidepanel.js:157 | filtering distributes over concatenation |
| JsCollections.StringArray.Push | sidepanel.js:160 | `push` appends in place |
| LegacyPanel.ApplyForm | sidepanel.js:186-203 | `saveConfig` takes each of the nine modelled form fields, keeps the settings the form does not have, and treats a missing sync box as on |
| LegacyPanel.Advance | sidepanel.js:543-550 | a tick refreshes exactly when the interval is positive and this tick completes it, and the progress restarts after a refresh |
| LegacyPanel.RefreshEveryInterval | sidepanel.js:543-550 | over any run of ticks, a positive interval refreshes once per interval ticks, and the progress stays below the interval |
| LegacyPanel.NoPositiveIntervalNeverRefreshes | sidepanel.js:538-550 | a missing, zero or negative interval never refreshes |
| LegacyPanel.Panel.constructor | sidepanel.js:53-58 | the panel starts with no topics, an empty read set, a copy of the defaults sharing the default block array, and auto refresh on |
| LegacyPanel.Panel.MarkAsRead | sidepanel.js:445-469 | adds exactly the id, persists the whole set, reports to the site exactly when sync is on and the post number is truthy, makes that topic read, leaves every other topic's read state alone, and re-renders; the auto-refresh switch is untouched |
| LegacyPanel.Panel.ToggleRead | sidepanel.js:497-501 | removes exactly the id (the set shrinks by one when it was there), re-renders and persists the set; the auto-refresh switch is untouched |
| LegacyPanel.Panel.StopAutoRefresh | sidepanel.js:554-557 | clears the timer and nothing else |
| LegacyPanel.Panel.StartAutoRefresh | sidepanel.js:536-552 | always clears the old timer; a new one runs, from progress 0, exactly when the interval is not 0 |
| LegacyPanel.Panel.Tick | sidepanel.js:543-550 | a running timer advances by one tick and reports a refresh as `Advance` says; the switch is untouched |
| LegacyPanel.Panel.ToggleAutoRefresh | sidepanel.js:559-564 | flips the switch, then starts or stops the timer accordingly; a started timer's progress is 0 |
| LegacyPanel.Panel.SaveConfig | sidepanel.js:186-208 | applies the form, re-renders, and restarts the timer when auto refresh is on, with progress 0 |
| LegacyPanel.Panel.BlockToggle | sidepanel.js:154-165 | unblocking builds a new array without the slug; blocking pushes in place, and then the default configuration's array changes too when it is shared; the configuration is then saved as `SaveConfig` does, so a restarted timer's progress is 0 and the switch is untouched |
| LegacyPanel.Panel.Reset | sidepanel.js:220-228 | the configuration is a fresh shallow copy of the defaults, sharing the default block array, and the timer restarts, with progress 0, when auto refresh is on |
| LegacyPanel.Panel.LoadTopics | sidepanel.js:254-288 | an unknown sub-category throws; a successful page replaces the list (even an empty one), then notifies and renders; a failure keeps the list and shows the error; the switch and the timer are untouched |
| LegacyPanel.BlockSurvivesReset | sidepanel.js:222 | blocking a slug on a fresh panel and then resetting leaves that slug blocked |
| MainPanel.LatestWhateverSelection | src/sidepanel/main.js:235 | the modular panel's request is `/latest.json` whatever sub-category is passed |
| MainPanel.IntervalOrDefault | src/sidepanel/main.js:506 | `parseInt(...) or 60` is never 0: a non-zero number is kept, and a missing or zero one becomes 60 |
| MainPanel.InitialSelection | src/sidepanel/main.js:140-152 | the stored selection is kept exactly when it has more than one entry and every slug is known; otherwise all slugs are selected |
| MainPanel.TagToggle | src/sidepanel/main.js:184-191 | an unselected slug is appended; a selected one is removed only when more than one is selected |
| MainPanel.TagToggleNeverEmpties | src/sidepanel/main.js:184-191 | on a duplicate-free selection, a toggle never leaves it empty and adds no duplicate |
| MainPanel.RepeatedStoredSlugCanEmpty | src/sidepanel/main.js:140-191 | a stored selection that repeats one slug is accepted as valid, and one toggle then empties it |
| MainPanel.Panel.constructor | src/sidepanel/main.js:45-50 | the panel starts with no topics, an empty read set, the defaults sharing the default block array, and no timer |
| MainPanel.Panel.LoadTopics | src/sidepanel/main.js:230-301 | always fetches `/latest.json`; only a successful non-empty page replaces the list (then it notifies and renders, failing under `'hide'`); an empty page or a failure keeps the list |
| MainPanel.Panel.InitCategoryFilter | src/sidepanel/main.js:134-174 | selects the checked stored selection (more than one slug) and rewrites storage only when it replaced a non-empty stored value |
| MainPanel.Panel.HandleCategoryTagToggle | src/sidepanel/main.js:179-203 | toggles the slug in the current selection (all slugs when there is none), stores the result, then reloads the list with the effects of `loadTopics` |
| MainPanel.Panel.HandleCategoryToggle | src/sidepanel/main.js:362-372 | unblocking builds a new array; blocking pushes in place, also into the default configuration's array when shared; then re-renders; the saved selection is untouched |
| MainPanel.Panel.MarkAsRead | src/sidepanel/main.js:337-357 | adds exactly the id, reports to the site exactly when sync is on and the post number is truthy, persists the set and re-renders; the saved selection is untouched |
| MainPanel.Panel.UpdateConfigFromUI | src/sidepanel/main.js:503-514 | overwrites only the four form fields, with a non-zero interval, and does not restart the timer |
| MainPanel.Panel.HandleAIConfigChange | src/sidepanel/main.js:63-67 | the AI settings form's switch (off when missing), trimmed URL and key, model (`gpt-3.5-turbo` when none) and depth (`smart` when none) replace those settings, and nothing else modelled changes |
| MainPanel.Panel.StopAutoRefresh | src/sidepanel/main.js:542-547 | no timer is left |
| MainPanel.Panel.StartAutoRefresh | src/sidepanel/main.js:529-538 | a timer runs exactly for a positive interval, with a period of interval × 1000 ms |
| MainPanel.Panel.Reset | src/sidepanel/main.js:414-427 | the defaults come back except the four form fields, which keep the form's values; the default block array is shared again; all slugs are selected; the timer restarts with a period of the interval times 1000 ms when auto refresh is on |
| MainPanel.ResetKeepsFormBlacklist | src/sidepanel/main.js:416-418 | a blacklist typed before a reset is still in force after it |

## Left out

- DOM work is not modelled: markup, `escapeHtml`, toasts, skeletons, the context menu, the user drop-down, appearance, the dialog markup and the category-tag rendering. It has no decision beyond those modelled.
- `chrome.*` calls and `fetch` are not modelled as calls. Storage is a map. Network and AI replies are input values. Messages sent (badge, notification, site report) are return values.
- Timers, `requestAnimationFrame` and async interleaving are not modelled. Overlapping `loadTopics` calls and hover timeouts are out of scope. Each method runs to completion.
- LegacyPanel.Advance counts whole ticks. The source adds the float `100/interval` per second, and rounding may move the refresh by one tick. That is not modelled.
- LegacyPanel.Panel.Tick does not run the refresh itself. The refresh flag is returned, and `handleManualRefresh`'s `loadTopics` is left to the caller.
- MainPanel.Panel.StartAutoRefresh records the period. The ticks of `setInterval` and the `loadTopics` they start are not modelled.
- Formatters.FormatNumber tags values of 1000 and more as `Thousands(n)`. The `toFixed(1)` text is floating point.
- `aiTemperature` and other floats are not modelled.
- Summary.PostLine: keeps the first 500 `char`s of a post's text. JavaScript's `substring(0, 500)` (src/utils/ai.js:59) counts UTF-16 code units, and a character outside the Basic Multilingual Plane (an emoji, say) is two of them. So for such text the model keeps more characters than the extension, and never splits a surrogate pair as the extension can. Dafny's `char` cannot hold half of a pair.
- MainPanel.Panel.HandleAIConfigChange: does not write `aiTemperature`, the `parseFloat` of the slider (src/sidepanel/ai-panel.js:271), because floats are not modelled.
- Formatters.FormatTime returns `MonthDay(at)` for ages of a day or more. Calendar month and day are not computed, and date parsing is replaced by integer milliseconds.
- Text.Lower lowers ASCII letters only. `toLowerCase` also maps other scripts. The Chinese keywords in the rules are unaffected.
- `extractTextFromHtml` is the parameter `plain`, because it parses HTML with the DOM.
- Loose `==` between a string and a number id is not modelled. Ids are integers throughout.
- `NaN` intervals are `None`. A non-numeric `parseInt` gives `NaN` there.
- The `lowDataMode`, `hoverPreview`, `clickBehavior` and `themeMode` settings are not modelled. They only affect markup.
- The v4.1 panel's `saveSettings`/`userSettings` writes are not modelled.
- The topic-click handler is not modelled beyond `markAsRead`, and `handleNewTopics` (sidepanel.js:585-594) is not modelled.
- Both panels' `init` is not modelled. The starting state is each constructor's. Stored configuration merging is `Storage.GetConfig` and `FeedRules.DecodeConfig`.
- Persisting the configuration object is not modelled: neither the panels' `saveConfig`, nor the write the v4.1 reset button makes (sidepanel.js:223), nor `handleAIConfigChange`'s `saveConfig(config)`. Only the store class's own writes are.
- Storage aliasing is not tracked by the `Storage` getters. They work on values, so `getConfig`'s `blockCategories` sharing `DEFAULT_CONFIG`'s array is modelled only in the panels, through `JsCollections.StringArray`.
- A stored `config` that is not an object is not modelled, and neither are prototype keys.
- The modular panel does not load as written, and the MainPanel members, the FeedRules.Modular* members and the AiPanel members describe each function as if its imports resolved. There are three link errors. `src/sidepanel/ui-render.js` exports `CATEGORIES` twice (line 17 and line 410), which is a syntax error. `src/sidepanel/main.js:11` imports `renderCategoryTags`, which `ui-render.js` does not export. `src/sidepanel/ai-panel.js` imports `fetchPosts`, which `src/utils/api.js` does not export.
- `fetchPosts` is an input: `src/sidepanel/ai-panel.js` imports it from `src/utils/api.js`, which does not export it. Its reply is the parameter `postsRes`.
- The `CALL_AI_API` message is an input. `background.js` has no handler for it, and the service reply is the parameter `aiReply`.
- The AI request bodies, headers, `usage` field and error-message scraping are not modelled. A failed AI call is abstracted to an error string.
- The `toggleRead` event of `src/sidepanel/utils.js` has no listener in `src/sidepanel/main.js`, so the modular panel has no unmark operation to model.
- `content.js` is not part of this model (page scraping), and neither are `create_icons.py` (icon drawing) and `src/sidepanel/utils.js` (clipboard and event glue).
- `logout`, `markReadOnSite`'s request and the `SHOW_NOTIFICATION` handler are not modelled. They only forward to `chrome.*` or `fetch`.
- A non-object `current_user` is treated as a present user. Only `null` and absence are distinguished.
