# Home feed of the chat app, in Dafny

This project models the post feed of the app's home screen (`Post` in
`src/app/views/home/Post.tsx`) and two pure helpers from `src/types/utils.ts`.

The feed shows posts four at a time. A tab bar picks one of three audiences:
community, friends, or the user's own posts. Each tab sends two 0/1 flags to
the listing endpoint. Scrolling to the end loads the next page. Pulling down
refreshes. A search box sends its trimmed text with a page-0 request.

The screen's state hooks are the fields of the class `PostComponent.Post`:
`posts`, `page`, `hasMore`, `searchQuery`, `activeTab`, `refreshing`,
`loadingDialog`, and `initialMount` (the ref that makes the tab effect skip its
first run). Each handler that calls the server is split in two:

- a method that runs when the user acts, changes what the handler changes, and
  returns the request it sends (or `None`);
- a `Complete…` method that applies the answer, a page or a failure, when that
  request settles.

Two requests in flight at once are then just a sequence of calls. Every method
is proved equal to a transition function on the value `PostFeed.FeedState`.
The module `PostFeedProperties` proves what those transitions promise when
chained. It covers infinite scrolling as a run of load-more rounds. It covers
the list only growing between resets, in any completion order. It also covers
the screen's scenarios, including answers that arrive late.

The model follows the code as written, including behaviour that a design with
a request counter discarding stale answers would avoid:

- No response is ever discarded as stale. A page requested under the old tab
  and answered after a tab change is appended to the new tab's list
  (`StaleLoadMoreAfterTabChangeIsAppended`).
- `fetchData` never sends the search text. Scrolling after a search appends
  unfiltered posts to the search results (`LoadMoreAfterSearchIsUnfiltered`).
- A successful search sets `hasMore` even when fewer than four posts came back.
- `clearSearch` and `handleRefresh` do not reset `hasMore` before they fetch.
  When their page-0 request fails, nothing resets it either. An exhausted feed
  then stays exhausted (`FailedResetKeepsFeedExhausted`). A feed that expected
  more keeps its old list with `page` at 0, so the next scroll asks for page 1
  again and appends it a second time (`FailedRefreshThenScrollRepeatsPageOne`).
- A fetched page sets `hasMore` only when it has exactly four posts. A longer
  page also ends scrolling. A search and a tab change set `hasMore` directly.
- Choosing the tab that is already active clears the list and sends nothing.
  React does not re-run an effect whose dependency did not change.
- The search box keeps the untrimmed text. Only the request carries the
  trimmed text.

`getDate` is modelled as a prefix of at most ten characters.
`getStatusIcon` is modelled as a total map from status code to icon name.
`String.prototype.trim` is needed for the search request, so it is modelled
too (`JsString.Trim`), with ECMAScript's white-space and line-terminator
characters.

## Model

| member | source | states |
|---|---|---|
| `Utils.GetDate` | src/types/utils.ts:13-15 | the result is the prefix of the input of length min(10, length of the input) |
| `Utils.GetDateOfTimestamp` | src/types/utils.ts:14 | a string of ten or more characters yields exactly its first ten |
| `Utils.GetDateOfShortString` | src/types/utils.ts:14 | a string of at most ten characters is returned unchanged |
| `Utils.GetDateIdempotent` | src/types/utils.ts:14 | `getDate(getDate(s)) == getDate(s)` |
| `Utils.GetDateDependsOnPrefixOnly` | src/types/utils.ts:14 | two strings with the same first ten characters have the same date |
| `Utils.GetStatusIcon` | src/types/utils.ts:36-43 | 1, 2 and 3 map to the globe, people and lock icons; every other code maps to `ellipsis-horizontal` |
| `Utils.StatusIconFallbackExactlyForUnknown` | src/types/utils.ts:36-43 | the fallback icon appears exactly for codes outside {1, 2, 3}, and the three known codes get three different icons |
| `JsString.TrimStart` | src/app/views/home/Post.tsx:32 | the result is a suffix of the input, everything dropped is white space, and it does not start with white space |
| `JsString.TrimEnd` | src/app/views/home/Post.tsx:32 | the result is a prefix of the input, everything dropped is white space, and it does not end with white space |
| `JsString.TrimOffset` | src/app/views/home/Post.tsx:32 | the kept text starts right after all the leading white space: what is skipped is white space, and the next character is not |
| `JsString.Trim` | src/app/views/home/Post.tsx:32 | the result is the piece of the input that starts after its leading white space and has only white space after it, and it neither starts nor ends with white space |
| `JsString.TrimIdempotent` | src/app/views/home/Post.tsx:32 | trimming twice equals trimming once |
| `JsString.TrimLeavesCleanText` | src/app/views/home/Post.tsx:32 | text without white space is sent as typed |
| `JsString.TrimBlankIsEmpty` | src/app/views/home/Post.tsx:32 | a query of only white space is sent as the empty string |
| `PostFeed.Initial` | src/app/views/home/Post.tsx:11-18 | the first render has no posts, page 0, `hasMore`, an empty query, the first tab, no indicator or dialog, and the initial-mount ref set |
| `PostFeed.ListRequest` | src/app/views/home/Post.tsx:31-37 | a list request carries the given text and page, size 4, and the given tab's two flags |
| `PostFeed.FetchRequest` | src/app/views/home/Post.tsx:54-62 | a request is built exactly when `hasMore` holds or page 0 is asked for; it carries that page, size 4, the active tab's flags and never any search text |
| `PostFeed.Merge` | src/app/views/home/Post.tsx:64-68 | page 0 replaces the list; a later page is appended, so the old list is a preserved prefix and the page is the suffix |
| `PostFeed.AfterFetch` | src/app/views/home/Post.tsx:63-75 | on success the page is merged, `hasMore` is true exactly when it has 4 posts, and `page` becomes the requested page; on failure `posts`, `page` and `hasMore` are unchanged; either way only the dialog flag is cleared and query, tab, indicator and ref stay |
| `PostFeed.AfterEditQuery` | src/app/views/home/Post.tsx:136 | typing sets the query and nothing else |
| `PostFeed.AfterSearchIssued` | src/app/views/home/Post.tsx:29 | starting a search only opens the loading dialog |
| `PostFeed.SearchRequest` | src/app/views/home/Post.tsx:31-37 | a search sends the trimmed query, page 0, size 4 and the active tab's flags |
| `PostFeed.AfterSearch` | src/app/views/home/Post.tsx:38-45 | success replaces the list with the results, sets `hasMore` whatever their number and sets `page` to 0; failure keeps `posts`, `page` and `hasMore`; either way the dialog closes |
| `PostFeed.AfterClearSearch` | src/app/views/home/Post.tsx:48-50 | clearing empties the query and rewinds `page` to 0, nothing else |
| `PostFeed.AfterRefreshIssued` | src/app/views/home/Post.tsx:79-81 | a refresh raises its indicator, empties the query and rewinds `page` to 0 |
| `PostFeed.AfterRefresh` | src/app/views/home/Post.tsx:82 | once the page-0 fetch settles the indicator is lowered, whether it succeeded (list replaced, `hasMore` iff 4 posts) or failed (feed kept) |
| `PostFeed.LoadMoreRequest` | src/app/views/home/Post.tsx:85-89 | a request is sent exactly when `hasMore` holds and nothing is loading, and it is `fetchData(page + 1)` |
| `PostFeed.AfterTabEffect` | src/app/views/home/Post.tsx:99-102 | the tab effect clears the initial-mount ref and changes nothing else |
| `PostFeed.TabEffectRequest` | src/app/views/home/Post.tsx:99-105 | the tab effect fetches page 0 exactly when the initial-mount ref is already cleared |
| `PostFeed.TabChangeHandled` | src/app/views/home/Post.tsx:91-97 | the handler selects the tab, rewinds `page`, empties the query, sets `hasMore` and empties the list |
| `PostFeed.AfterTabChange` | src/app/views/home/Post.tsx:91-105 | after the handler and the effect the new tab is active with an empty list, page 0, empty query and `hasMore`; the ref is cleared when the tab changed |
| `PostFeed.TabChangeRequest` | src/app/views/home/Post.tsx:91-105 | a tab change fetches page 0 under the new tab's flags exactly when the tab changed and the effect has run before |
| `PostFeed.AfterMount` | src/app/views/home/Post.tsx:99-109 | mounting only clears the initial-mount ref |
| `PostFeedProperties.TabFlagsExclusive` | src/app/views/home/Post.tsx:22-26 | every flag is 0 or 1, no tab sets both, and the three tabs send different flag pairs |
| `PostFeedProperties.LoadMoreRound` | src/app/views/home/Post.tsx:85-89 | one scroll with nothing loading leaves an exhausted feed as it is and otherwise applies the answer as page `page + 1` |
| `PostFeedProperties.Paginate` | src/app/views/home/Post.tsx:85-89 | any number of scroll rounds keeps the tab, query, indicator and ref |
| `PostFeedProperties.PaginateAppends` | src/app/views/home/Post.tsx:63-70 | while full pages come back, the list is the old list followed by every page in order, `page` advances once per round, and `hasMore` is true exactly when the last page was full |
| `PostFeedProperties.ExhaustedFeedIsFrozen` | src/app/views/home/Post.tsx:55 | once `hasMore` is false, no number of scrolls changes the state |
| `PostFeedProperties.PaginateSplit` | src/app/views/home/Post.tsx:85-89 | scrolling through two runs of pages is scrolling through their concatenation |
| `PostFeedProperties.ShortPageEndsPagination` | src/app/views/home/Post.tsx:69 | after a short page, whatever the server would answer later is never asked for |
| `PostFeedProperties.PaginateKeepsPrefix` | src/app/views/home/Post.tsx:67 | however the server answers, scrolling keeps the shown list as a prefix |
| `PostFeedProperties.Run` | src/app/views/home/Post.tsx:22-26 | every state reached by any sequence of gestures and completions names one of the three tabs |
| `PostFeedProperties.AppendOnlyWithoutReset` | src/app/views/home/Post.tsx:63-68 | with no search, clear, refresh, tab change or page-0 answer in between, the list only grows at its end, in any completion order |
| `PostFeedProperties.BasicPagination` | src/app/views/home/Post.tsx:63-89 | a full page 0, then page 1 of two posts: page 1 is requested, the list is those six posts, `hasMore` is false and scrolling requests nothing more |
| `PostFeedProperties.LoadMoreWhileLoadingSendsNothing` | src/app/views/home/Post.tsx:86 | while the fetch hook reports loading, scrolling sends nothing |
| `PostFeedProperties.FailedRefreshThenScrollRepeatsPageOne` | src/app/views/home/Post.tsx:54-89 | after a failed refresh the list and `hasMore` stay, `page` is 0, and the next scroll requests page 1 again and appends it after the old list |
| `PostFeedProperties.FailedResetKeepsFeedExhausted` | src/app/views/home/Post.tsx:48-89 | a failed refresh or cleared search leaves an exhausted feed exhausted, so scrolling requests nothing |
| `PostFeedProperties.SearchReplacesFeed` | src/app/views/home/Post.tsx:38-40 | a search with fewer than four results still replaces the list, rewinds to page 0 and expects more |
| `PostFeedProperties.LoadMoreAfterSearchIsUnfiltered` | src/app/views/home/Post.tsx:57-67 | scrolling after a search requests page 1 without text and appends that page to the search results |
| `PostFeedProperties.StaleLoadMoreAfterTabChangeIsAppended` | src/app/views/home/Post.tsx:63-70 | a page of the old tab that settles after the new tab's page 0 is appended to the new tab's list and moves `page` |
| `PostFeedProperties.StaleLoadMoreBeforeNewPageIsReplaced` | src/app/views/home/Post.tsx:63-70 | a page of the old tab that settles first is shown under the new tab until page 0 replaces it |
| `PostFeedProperties.SameTabChangeClearsWithoutFetch` | src/app/views/home/Post.tsx:91-105 | choosing the active tab again empties the list and sends no request |
| `PostFeedProperties.FailedRefreshLowersIndicator` | src/app/views/home/Post.tsx:71-82 | a failed refresh lowers the indicator and keeps the list and `hasMore`, with the query emptied and `page` at 0 |
| `PostFeedProperties.MountLoadsFirstPage` | src/app/views/home/Post.tsx:99-109 | on mount the tab effect sends nothing and the mount effect requests page 0, size 4, flags (0, 0) |
| `PostComponent.Post.constructor` | src/app/views/home/Post.tsx:11-18 | the fields start as the initial state |
| `PostComponent.Post.EditQuery` | src/app/views/home/Post.tsx:136 | the fields become `AfterEditQuery` of the old ones |
| `PostComponent.Post.FetchData` | src/app/views/home/Post.tsx:54-62 | returns `FetchRequest` of the current fields and changes nothing |
| `PostComponent.Post.CompleteFetch` | src/app/views/home/Post.tsx:63-75 | the fields become `AfterFetch` of the old ones, appending in place for a later page |
| `PostComponent.Post.HandleSearch` | src/app/views/home/Post.tsx:28-37 | opens the dialog and returns `SearchRequest` of the old fields |
| `PostComponent.Post.CompleteSearch` | src/app/views/home/Post.tsx:38-45 | the fields become `AfterSearch` of the old ones |
| `PostComponent.Post.ClearSearch` | src/app/views/home/Post.tsx:48-52 | empties the query, rewinds, and returns the page-0 request under the active tab |
| `PostComponent.Post.HandleRefresh` | src/app/views/home/Post.tsx:78-82 | raises the indicator, empties the query, rewinds, and returns the page-0 request |
| `PostComponent.Post.CompleteRefresh` | src/app/views/home/Post.tsx:82 | the fields become `AfterRefresh` of the old ones |
| `PostComponent.Post.HandleLoadMore` | src/app/views/home/Post.tsx:85-89 | returns `LoadMoreRequest` of the current fields and changes nothing |
| `PostComponent.Post.TabEffect` | src/app/views/home/Post.tsx:99-105 | clears the ref on its first run, otherwise returns the page-0 request |
| `PostComponent.Post.HandleTabChange` | src/app/views/home/Post.tsx:91-105 | the fields become `AfterTabChange` of the old ones, and the request is `TabChangeRequest` |
| `PostComponent.Post.Mount` | src/app/views/home/Post.tsx:99-109 | runs the tab effect then the mount effect; returns the page-0 request and clears the ref |

## Left out

- Rendering, styles, navigation to post details, the empty-list and footer
  components and `keyExtractor` are view code only.
- The HTTP transport behind `useFetch` is not part of this model. A request is
  returned as a value. Its answer is a `Response` argument: a page of posts, or
  `Failed` for any rejection. `loading` is a parameter of `HandleLoadMore`.
- React mechanics are not modelled: batching, effect scheduling, and
  `useCallback` closures that read an older render's `hasMore` or `activeTab`.
  Each handler reads the current fields at once.
- Real asynchrony is not modelled. Overlap is shown only by the order of
  handler and `Complete…` calls.
- `console.error` logging is left out. `loadingDialog` is kept only as a flag.
- `dateToString` and `stringToDate` are thin wrappers over the dayjs library,
  whose parsing and formatting is not part of this model.
- `uploadImage` builds a form and posts it over the network, so it is left out.
- `Utils.GetStatusIcon` takes an integer status code. A non-integer JavaScript
  number also falls into the default case; that is not modelled.
- Strings with characters outside the Basic Multilingual Plane are not
  represented, because a Dafny char cannot be a surrogate code unit. So
  `slice(0, 10)` splitting a surrogate pair is not modelled by `Utils.GetDate`,
  and neither is a search query holding such a character. A value that is not
  a string at run time is not modelled either.
- Page numbers are unbounded naturals. JavaScript numbers lose precision only
  past 2^53 pages.
